/** The backward paged candle fetch (core/backtest/toss_data_source.py). */
module DataSource {
  import opened Arithmetic
  import opened Market
  import opened Wrappers

  const BATCH_SIZE := 200
  const MAX_ITERATIONS := 500

  ghost predicate Earlier(cs: seq<Candle>, i: int, j: int)
    requires 0 <= i < |cs| && 0 <= j < |cs|
  {
    cs[i].timestamp < cs[j].timestamp
  }

  ghost predicate Chronological(cs: seq<Candle>) {
    forall i, j :: 0 <= i < j < |cs| ==> Earlier(cs, i, j)
  }

  /** How many candles are strictly before a time; without one, all of them. */
  function CountBefore(history: seq<Candle>, before: Option<int>): (n: nat)
    ensures n <= |history|
  {
    if history == [] then 0
    else
      var last := |history| - 1;
      if before.None? || history[last].timestamp < before.value then |history| else CountBefore(history[..last], before)
  }

  /** What get_candles returns over a static history: the newest `count` candles strictly before the cursor. */
  function Page(history: seq<Candle>, count: nat, before: Option<int>): seq<Candle> {
    LastN(history[..CountBefore(history, before)], count)
  }

  /** Candles not before the start. */
  function From(cs: seq<Candle>, start: int): seq<Candle> {
    if cs == [] then []
    else
      var n := |cs| - 1;
      From(cs[..n], start) + if cs[n].timestamp >= start then [cs[n]] else []
  }

  /** The plain filter: start <= t < end. */
  function InRange(history: seq<Candle>, start: int, end: Option<int>): seq<Candle> {
    From(history[..CountBefore(history, end)], start)
  }

  /** Insertion into a sorted list, after equal timestamps, as a stable sort does. */
  function Insert(cs: seq<Candle>, c: Candle): seq<Candle> {
    if cs == [] || cs[|cs| - 1].timestamp <= c.timestamp then cs + [c]
    else Insert(cs[..|cs| - 1], c) + [cs[|cs| - 1]]
  }

  function Sorted(cs: seq<Candle>): seq<Candle> {
    if cs == [] then [] else Insert(Sorted(cs[..|cs| - 1]), cs[|cs| - 1])
  }

  ghost predicate NonDecreasing(cs: seq<Candle>) {
    forall i, j :: 0 <= i < j < |cs| ==> cs[i].timestamp <= cs[j].timestamp
  }

  /** The candles of one time, in the order they stand. */
  function At(cs: seq<Candle>, t: int): seq<Candle> {
    if cs == [] then []
    else
      var n := |cs| - 1;
      At(cs[..n], t) + if cs[n].timestamp == t then [cs[n]] else []
  }

  lemma AtSnoc(cs: seq<Candle>, c: Candle, t: int)
    ensures At(cs + [c], t) == At(cs, t) + if c.timestamp == t then [c] else []
  {
    assert (cs + [c])[..|cs|] == cs;
  }

  ghost predicate UpTo(cs: seq<Candle>, t: int) {
    forall i :: 0 <= i < |cs| ==> cs[i].timestamp <= t
  }

  lemma {:induction false} InsertOrdered(cs: seq<Candle>, c: Candle, t: int)
    requires NonDecreasing(cs) && UpTo(cs, t) && c.timestamp <= t
    ensures NonDecreasing(Insert(cs, c)) && UpTo(Insert(cs, c), t)
  {
    if cs == [] || cs[|cs| - 1].timestamp <= c.timestamp {
    } else {
      var n := |cs| - 1;
      InsertOrdered(cs[..n], c, cs[n].timestamp);
    }
  }

  lemma {:induction false} InsertAt(cs: seq<Candle>, c: Candle, t: int)
    ensures At(Insert(cs, c), t) == At(cs, t) + if c.timestamp == t then [c] else []
  {
    if cs == [] || cs[|cs| - 1].timestamp <= c.timestamp {
      AtSnoc(cs, c, t);
    } else {
      var n := |cs| - 1;
      var inserted := Insert(cs[..n], c);
      InsertAt(cs[..n], c, t);
      AtSnoc(inserted, cs[n], t);
      assert cs[n].timestamp != c.timestamp;
      if cs[n].timestamp == t {
        assert At(cs, t) == At(cs[..n], t) + [cs[n]] && At(inserted, t) == At(cs[..n], t);
      } else {
        assert At(cs, t) == At(cs[..n], t);
      }
    }
  }

  /** Sorting puts any candles in the order of their times and keeps those of one time as they stood. */
  lemma {:induction false} SortedStable(cs: seq<Candle>, t: int)
    ensures NonDecreasing(Sorted(cs)) && At(Sorted(cs), t) == At(cs, t)
  {
    if cs == [] {
    } else {
      var n := |cs| - 1;
      SortedStable(cs[..n], t);
      InsertAt(Sorted(cs[..n]), cs[n], t);
      var before := Sorted(cs[..n]);
      var latest := if before == [] then cs[n].timestamp else Max(cs[n].timestamp, before[|before| - 1].timestamp);
      InsertOrdered(before, cs[n], latest);
    }
  }

  lemma SliceChronological(cs: seq<Candle>, low: nat, high: nat)
    requires Chronological(cs) && low <= high <= |cs|
    ensures Chronological(cs[low..high])
  {
    var slice := cs[low..high];
    forall i, j | 0 <= i < j < |slice| ensures Earlier(slice, i, j) {
      assert Earlier(cs, low + i, low + j);
    }
  }

  lemma {:induction false} SortedChronological(cs: seq<Candle>)
    requires Chronological(cs)
    ensures Sorted(cs) == cs
  {
    if cs == [] {
    } else {
      var n := |cs| - 1;
      SliceChronological(cs, 0, n);
      SortedChronological(cs[..n]);
      assert n > 0 ==> Earlier(cs, n - 1, n);
    }
  }

  /** The first `k` candles, and no other, are before time `t`. */
  ghost predicate Splits(cs: seq<Candle>, t: int, k: int) {
    && 0 <= k <= |cs|
    && (forall i :: 0 <= i < k ==> cs[i].timestamp < t)
    && (forall i :: k <= i < |cs| ==> cs[i].timestamp >= t)
  }

  lemma {:induction false} CountBeforeSplits(history: seq<Candle>, t: int)
    requires Chronological(history)
    ensures Splits(history, t, CountBefore(history, Some(t)))
  {
    if history == [] {
    } else {
      var n := |history| - 1;
      if history[n].timestamp >= t {
        SliceChronological(history, 0, n);
        CountBeforeSplits(history[..n], t);
      } else {
        forall i | 0 <= i < n ensures history[i].timestamp < t {
          assert Earlier(history, i, n);
        }
      }
    }
  }

  /** A cursor at a candle's own time counts exactly the candles before it. */
  lemma CountBeforeAt(history: seq<Candle>, i: nat)
    requires Chronological(history) && i < |history|
    ensures CountBefore(history, Some(history[i].timestamp)) == i
  {
    CountBeforeSplits(history, history[i].timestamp);
    var n := CountBefore(history, Some(history[i].timestamp));
    assert n < i ==> Earlier(history, n, i);
  }

  lemma {:induction false} NothingFrom(cs: seq<Candle>, start: int)
    requires forall i :: 0 <= i < |cs| ==> cs[i].timestamp < start
    ensures From(cs, start) == []
  {
    if cs == [] {
    } else {
      NothingFrom(cs[..|cs| - 1], start);
    }
  }

  lemma {:induction false} FromIsSuffix(cs: seq<Candle>, start: int, k: int)
    requires Splits(cs, start, k)
    ensures From(cs, start) == cs[k..]
  {
    if k == |cs| {
      NothingFrom(cs, start);
    } else {
      var n := |cs| - 1;
      FromIsSuffix(cs[..n], start, k);
      SuffixSnoc(cs, k);
    }
  }

  lemma SuffixSnoc(cs: seq<Candle>, k: nat)
    requires k < |cs|
    ensures cs[k..] == cs[..|cs| - 1][k..] + [cs[|cs| - 1]]
  {
  }

  /** Of a page `low..high` of the history, what is not before the start. */
  lemma FromSlice(history: seq<Candle>, start: int, low: int, high: int, from: int)
    requires 0 <= low <= high <= |history| && from <= high
    requires forall i :: 0 <= i < high ==> (history[i].timestamp < start <==> i < from)
    ensures From(history[low..high], start) == history[Max(low, from)..high]
  {
    var slice := history[low..high];
    assert Splits(slice, start, Max(low, from) - low);
    FromIsSuffix(slice, start, Max(low, from) - low);
  }

  /** Where the start date cuts the candles before the end; zero without a start date. */
  function Cut(history: seq<Candle>, start: Option<int>, n: nat): (from: nat)
    requires n <= |history|
    ensures from <= n
  {
    if start.None? then 0 else CountBefore(history[..n], start)
  }

  lemma CutSplits(history: seq<Candle>, start: int, n: nat)
    requires Chronological(history) && n <= |history|
    ensures forall i :: 0 <= i < n ==> (history[i].timestamp < start <==> i < Cut(history, Some(start), n))
  {
    var front := history[..n];
    SliceChronological(history, 0, n);
    CountBeforeSplits(front, start);
    assert forall i :: 0 <= i < n ==> front[i] == history[i];
  }

  /** The filter says what it should: in order, every candle of the history with start <= t < end, and no other. */
  lemma InRangeExact(history: seq<Candle>, start: int, end: Option<int>)
    requires Chronological(history)
    ensures var n := CountBefore(history, end);
            var k := Cut(history, Some(start), n);
            && InRange(history, start, end) == history[k..n]
            && forall i :: 0 <= i < |history| ==>
                 (k <= i < n <==> start <= history[i].timestamp && (end.Some? ==> history[i].timestamp < end.value))
  {
    var n := CountBefore(history, end);
    if end.Some? {
      CountBeforeSplits(history, end.value);
    }
    CutSplits(history, start, n);
    FromSlice(history, start, 0, n, Cut(history, Some(start), n));
  }

  lemma PageSlice(history: seq<Candle>, before: Option<int>)
    ensures var low := CountBefore(history, before);
            Page(history, BATCH_SIZE, before) == history[Max(0, low - BATCH_SIZE)..low]
  {
  }

  /**
   Pages are fetched newest first until one is empty, repeats its oldest time, or reaches past the
   start. Over a static history in time order the result is the plain filter, or the newest part of it
   when the page budget of a hundred thousand candles runs out; without a start date it is one page.
   */
  method FetchRange(history: seq<Candle>, start: Option<int>, end: Option<int>)
    returns (r: seq<Candle>, ghost low: nat, ghost high: nat)
    requires Chronological(history)
    ensures low <= high <= |history| && r == history[low..high]
    ensures forall i :: 0 <= i < |history| ==> (i < high <==> end.None? || history[i].timestamp < end.value)
    ensures start.Some? ==>
              forall i :: 0 <= i < high ==>
                (low <= i <==> history[i].timestamp >= start.value && high - i <= 100000)
    ensures start.None? ==> low == if high > 200 then high - 200 else 0
    ensures start.Some? ==> r == LastN(InRange(history, start.value, end), BATCH_SIZE * MAX_ITERATIONS)
    ensures start.Some? ==>
              (r == InRange(history, start.value, end) <==> |InRange(history, start.value, end)| <= 100000)
    ensures start.None? ==> r == Page(history, BATCH_SIZE, end)
  {
    var all := FetchPages(history, start, end);
    high := CountBefore(history, end);
    ghost var from := Cut(history, start, high);
    low := Bottom(start, from, high);
    SliceChronological(history, low, high);
    SortedChronological(all);
    r := Sorted(all);
    if end.Some? {
      CountBeforeSplits(history, end.value);
    }
    if start.Some? {
      CutSplits(history, start.value, high);
      InRangeExact(history, start.value, end);
    } else {
      PageSlice(history, end);
    }
  }

  lemma SlicesJoin(cs: seq<Candle>, a: nat, b: nat, c: nat)
    requires a <= b <= c <= |cs|
    ensures cs[a..b] + cs[b..c] == cs[a..c]
  {
  }

  /** One request to the broker, or to the cache in front of it. */
  method GetCandles(history: seq<Candle>, before: Option<int>) returns (batch: seq<Candle>)
    ensures var low := CountBefore(history, before); batch == history[Max(0, low - BATCH_SIZE)..low]
  {
    PageSlice(history, before);
    batch := Page(history, BATCH_SIZE, before);
  }

  /** How far down the pages reach: to the start date or the end of the page budget; one page without a start date. */
  function Bottom(start: Option<int>, from: nat, n: nat): (bottom: nat)
    requires from <= n
    ensures bottom <= n
  {
    if start.Some? then Max(from, n - BATCH_SIZE * MAX_ITERATIONS) else Max(0, n - BATCH_SIZE)
  }

  /** Puts a page in front of what has been fetched, without the candles before the start date if there is one. */
  method Prepend(
    ghost history: seq<Candle>, batch: seq<Candle>, start: Option<int>, all: seq<Candle>,
    ghost next: nat, ghost low: nat, ghost n: nat, ghost from: nat)
    returns (all': seq<Candle>, reached: bool)
    requires next <= low <= n <= |history| && from <= low && batch == history[next..low] && all == history[low..n]
    requires start.Some? ==> forall i :: 0 <= i < n ==> (history[i].timestamp < start.value <==> i < from)
    requires start.None? ==> from == 0
    ensures all' == history[Max(next, from)..n] && (reached <==> next < from)
  {
    if start.Some? {
      var valid := From(batch, start.value);
      FromSlice(history, start.value, next, low, from);
      SlicesJoin(history, Max(next, from), low, n);
      all' := valid + all;
      reached := |valid| < |batch|;
    } else {
      SlicesJoin(history, next, low, n);
      all' := batch + all;
      reached := false;
    }
  }

  /** Where a page reaches past the start date, the start date is the bottom. */
  lemma StopsAtStart(start: Option<int>, from: nat, n: nat, low: nat, i: nat)
    requires start.Some? && i < MAX_ITERATIONS && low == Max(0, n - BATCH_SIZE * i)
    requires Max(0, low - BATCH_SIZE) < from <= low <= n
    ensures Bottom(start, from, n) == from
  {
  }

  /** The loop of fetch_range: what it has put in front of the list when it stops. */
  method FetchPages(history: seq<Candle>, start: Option<int>, end: Option<int>) returns (all: seq<Candle>)
    requires Chronological(history)
    ensures var n := CountBefore(history, end);
            all == history[Bottom(start, Cut(history, start, n), n)..n]
  {
    all := [];
    var before := end;
    var prevOldest: Option<int> := None;
    ghost var n := CountBefore(history, end);
    ghost var low, from := n, Cut(history, start, n);
    ghost var bottom := Bottom(start, from, n);
    if start.Some? {
      CutSplits(history, start.value, n);
    }
    for i := 0 to MAX_ITERATIONS
      invariant start.None? ==> i == 0
      invariant low == Max(0, n - BATCH_SIZE * i) && low == CountBefore(history, before) && from <= low
      invariant all == history[low..n]
      invariant prevOldest.Some? ==> low < |history| && prevOldest == Some(history[low].timestamp)
    {
      var batch := GetCandles(history, before);
      ghost var next := Max(0, low - BATCH_SIZE);
      assert |batch| == low - next;
      if batch == [] {
        assert low == 0 == bottom;
        break;
      }
      assert batch[0] == history[next] && next < low;
      var oldest := batch[0].timestamp;
      assert prevOldest.Some? ==> Earlier(history, next, low);
      if prevOldest.Some? && oldest >= prevOldest.value {
        break;
      }
      prevOldest := Some(oldest);
      var reached;
      all, reached := Prepend(history, batch, start, all, next, low, n, from);
      if reached {
        StopsAtStart(start, from, n, low, i);
        break;
      }
      before := Some(oldest);
      CountBeforeAt(history, next);
      low := next;
      if start.None? {
        break;
      }
    }
  }
}
