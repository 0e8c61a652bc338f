/**
 The store's and the executor's calls are runs of the protocol's steps: what OrderProtocol proves about
 every interleaving therefore covers them: each call keeps its invariant.
 */
module OrderRefinement {
  import opened OrderTable
  import opened OrderProtocol
  import opened OrderFeeds
  import OrderExecutor
  import opened Wrappers

  ghost predicate SelectThenWrite(t: Table, o: BrokerOrder, status: Status, t': Table, found: Option<string>) {
    SelectResult(t, o, found) && t' == WriteTable(t, o, found, status)
  }

  /** One upsert call is the protocol's SELECT followed at once by its write, for some row the SELECT may return. */
  lemma UpsertIsSelectThenWrite(t: Table, o: BrokerOrder, status: Status, t': Table)
    ensures Upserted(t, o, status, t') <==> exists found :: SelectThenWrite(t, o, status, t', found)
  {
    if Upserted(t, o, status, t') {
      if Matched(t, Key(o), o.id) {
        var c :| Matches(t, c, Key(o), o.id) && t' == t[c := Overwritten(t[c], o, status)];
        assert SelectThenWrite(t, o, status, t', Some(c));
      } else {
        assert SelectThenWrite(t, o, status, t', None);
      }
    }
    if found :| SelectThenWrite(t, o, status, t', found) {
      match found
      case Some(c) =>
        assert Matches(t, c, Key(o), o.id);
        assert Matched(t, Key(o), o.id);
      case None =>
        assert forall c :: c in t ==> !Matches(t, c, Key(o), o.id);
    }
  }

  ghost predicate Moves(s: State, step: Step, s': State) {
    Can(s, step) && Apply(s, step) == s'
  }

  /** `steps`, taken one after the other with nothing in between, lead from `s` to `s'`. */
  ghost predicate Leads(s: State, steps: seq<Step>, s': State)
    decreases |steps|, 0
  {
    if steps == [] then s' == s else LeadsThen(s, steps[..|steps| - 1], steps[|steps| - 1], s')
  }

  ghost predicate LeadsThen(s: State, earlier: seq<Step>, last: Step, s': State)
    decreases |earlier|, 1
  {
    exists mid :: Leads(s, earlier, mid) && Moves(mid, last, s')
  }

  lemma LeadsOn(s: State, steps: seq<Step>, mid: State, last: Step, s': State)
    requires Leads(s, steps, mid) && Moves(mid, last, s')
    ensures Leads(s, steps + [last], s')
  {
    assert (steps + [last])[..|steps|] == steps;
    assert LeadsThen(s, steps, last, s');
  }

  lemma MovesKeeps(s: State, step: Step, s': State)
    requires Inv(s) && Moves(s, step, s') && (step.List? ==> Timely(s, step.order))
    ensures Inv(s')
  {
    StepKeeps(s, step);
  }

  ghost predicate NoListings(steps: seq<Step>) {
    forall i :: 0 <= i < |steps| ==> !steps[i].List?
  }

  /** Steps that list nothing keep the protocol's invariant, one after the other. */
  lemma {:induction false} LeadsKeeps(s: State, steps: seq<Step>, s': State)
    requires Inv(s) && Leads(s, steps, s') && NoListings(steps)
    ensures Inv(s')
    decreases |steps|
  {
    if steps == [] {
    } else {
      var n := |steps| - 1;
      assert LeadsThen(s, steps[..n], steps[n], s');
      var mid :| Leads(s, steps[..n], mid) && Moves(mid, steps[n], s');
      LeadsKeeps(s, steps[..n], mid);
      MovesKeeps(mid, steps[n], s');
    }
  }

  /** A submission's steps from its start to the call of the broker. */
  function Sending(t: nat, c: string, row: Row): seq<Step> {
    [Start(t, c)] + [Check(t)] + [Insert(t, row)] + [Commit(t)] + [Place(t)]
  }

  function At(s: State, t: nat, sub: Submission): State {
    s.(submissions := s.submissions[t := sub])
  }

  lemma SendingMoves(s: State, t: nat, c: string, row: Row)
    requires t !in s.submissions && BotId(c) && c !in s.table && row.broker == None
    ensures Moves(s, Start(t, c), At(s, t, Checking(c)))
    ensures Moves(At(s, t, Checking(c)), Check(t), At(s, t, Inserting(c)))
    ensures Moves(At(s, t, Inserting(c)), Insert(t, row), At(s.(table := s.table[c := row]), t, Committing(c)))
  {
    assert s.submissions[t := Checking(c)][t := Inserting(c)] == s.submissions[t := Inserting(c)];
    assert s.submissions[t := Inserting(c)][t := Committing(c)] == s.submissions[t := Committing(c)];
  }

  lemma CommitMoves(s: State, t: nat, c: string)
    ensures Moves(At(s, t, Committing(c)), Commit(t), At(s.(durable := s.table), t, Calling(c)))
    ensures Moves(At(s, t, Calling(c)), Place(t),
            At(s.(placed := s.placed + [c], requests := s.requests + {c}), t, Waiting(c)))
  {
    assert s.submissions[t := Committing(c)][t := Calling(c)] == s.submissions[t := Calling(c)];
    assert s.submissions[t := Calling(c)][t := Waiting(c)] == s.submissions[t := Waiting(c)];
  }

  function Sent(s: State, c: string, row: Row): State {
    s.(table := s.table[c := row], durable := s.table[c := row], placed := s.placed + [c], requests := s.requests + {c})
  }

  lemma Sends(s: State, t: nat, c: string, row: Row)
    requires t !in s.submissions && BotId(c) && c !in s.table && row.broker == None
    ensures Leads(s, Sending(t, c, row), At(Sent(s, c, row), t, Waiting(c)))
  {
    SendingMoves(s, t, c, row);
    var inserted := s.(table := s.table[c := row]);
    CommitMoves(inserted, t, c);
    CommitMoves(inserted.(durable := inserted.table), t, c);
    FiveSteps(s, Start(t, c), Check(t), Insert(t, row), Commit(t), Place(t),
              At(s, t, Checking(c)), At(s, t, Inserting(c)), At(inserted, t, Committing(c)),
              At(inserted.(durable := inserted.table), t, Calling(c)), At(Sent(s, c, row), t, Waiting(c)));
  }

  lemma FiveSteps(
    s: State, a: Step, b: Step, c: Step, d: Step, e: Step, s1: State, s2: State, s3: State, s4: State, s5: State)
    requires Moves(s, a, s1) && Moves(s1, b, s2) && Moves(s2, c, s3) && Moves(s3, d, s4) && Moves(s4, e, s5)
    ensures Leads(s, [a] + [b] + [c] + [d] + [e], s5)
  {
    LeadsOn(s, [], s, a, s1);
    assert [] + [a] == [a];
    LeadsOn(s, [a], s1, b, s2);
    LeadsOn(s, [a] + [b], s2, c, s3);
    LeadsOn(s, [a] + [b] + [c], s3, d, s4);
    LeadsOn(s, [a] + [b] + [c] + [d], s4, e, s5);
  }

  /** ... and from the broker's answer to the commit of what the answer wrote. */
  function Answering(t: nat, c: string, reply: Result<string, string>): seq<Step> {
    match reply
    case Success(id) => [Accept(c, id)] + [Ack(t, id)] + [Flush(t)]
    case Failure(_) => [Fail(t)] + [Flush(t)]
  }

  /** The state a whole submission leaves behind; an order the broker refused may still be sitting there. */
  function Submitted(s: State, c: string, row: Row, reply: Result<string, string>): State {
    match reply
    case Success(id) =>
      var table := s.table[c := row.(status := OrderTable.Submitted, broker := Some(id))];
      s.(table := table, durable := table, placed := s.placed + [c], requests := s.requests + {c} - {c},
          broker := s.broker[id := c])
    case Failure(_) =>
      var table := s.table[c := row.(status := Rejected)];
      s.(table := table, durable := table, placed := s.placed + [c], requests := s.requests + {c})
  }

  lemma AckMoves(s: State, t: nat, c: string, id: string)
    requires c in s.requests && id !in s.broker
    ensures var accepted := s.(broker := s.broker[id := c], requests := s.requests - {c});
            && Moves(At(s, t, Waiting(c)), Accept(c, id), At(accepted, t, Waiting(c)))
            && Moves(At(accepted, t, Waiting(c)), Ack(t, id),
                     At(accepted.(table := WithStatus(s.table, c, OrderTable.Submitted, Some(id))), t, Flushing(c)))
  {
    assert s.submissions[t := Waiting(c)][t := Flushing(c)] == s.submissions[t := Flushing(c)];
  }

  lemma FailMoves(s: State, t: nat, c: string)
    ensures Moves(At(s, t, Waiting(c)), Fail(t),
            At(s.(table := WithStatus(s.table, c, Rejected, None)), t, Flushing(c)))
  {
    assert s.submissions[t := Waiting(c)][t := Flushing(c)] == s.submissions[t := Flushing(c)];
  }

  lemma FlushMoves(s: State, t: nat, c: string)
    requires t !in s.submissions
    ensures Moves(At(s, t, Flushing(c)), Flush(t), s.(durable := s.table))
  {
    assert s.submissions[t := Flushing(c)] - {t} == s.submissions;
  }

  lemma Accepted(s: State, t: nat, c: string, row: Row, id: string)
    requires t !in s.submissions && id !in s.broker
    ensures Leads(At(Sent(s, c, row), t, Waiting(c)), Answering(t, c, Success(id)), Submitted(s, c, row, Success(id)))
  {
    var sent := Sent(s, c, row);
    AckMoves(sent, t, c, id);
    var accepted := sent.(broker := s.broker[id := c], requests := sent.requests - {c});
    var acked := accepted.(table := WithStatus(sent.table, c, OrderTable.Submitted, Some(id)));
    FlushMoves(acked, t, c);
    assert acked.table == Submitted(s, c, row, Success(id)).table;
    var s0 := At(sent, t, Waiting(c));
    assert [] + [Accept(c, id)] == [Accept(c, id)];
    LeadsOn(s0, [], s0, Accept(c, id), At(accepted, t, Waiting(c)));
    LeadsOn(s0, [Accept(c, id)], At(accepted, t, Waiting(c)), Ack(t, id), At(acked, t, Flushing(c)));
    LeadsOn(s0, [Accept(c, id)] + [Ack(t, id)], At(acked, t, Flushing(c)), Flush(t), acked.(durable := acked.table));
  }

  lemma Refused(s: State, t: nat, c: string, row: Row, error: string)
    requires t !in s.submissions
    ensures Leads(At(Sent(s, c, row), t, Waiting(c)), Answering(t, c, Failure(error)),
            Submitted(s, c, row, Failure(error)))
  {
    var sent := Sent(s, c, row);
    FailMoves(sent, t, c);
    var failed := sent.(table := WithStatus(sent.table, c, Rejected, None));
    FlushMoves(failed, t, c);
    assert failed.table == Submitted(s, c, row, Failure(error)).table;
    var s0 := At(sent, t, Waiting(c));
    assert [] + [Fail(t)] == [Fail(t)];
    LeadsOn(s0, [], s0, Fail(t), At(failed, t, Flushing(c)));
    LeadsOn(s0, [Fail(t)], At(failed, t, Flushing(c)), Flush(t), failed.(durable := failed.table));
  }

  lemma {:induction false} LeadsConcat(s: State, first: seq<Step>, mid: State, second: seq<Step>, s': State)
    requires Leads(s, first, mid) && Leads(mid, second, s')
    ensures Leads(s, first + second, s')
    decreases |second|
  {
    if second == [] {
      assert first + second == first;
    } else {
      var n := |second| - 1;
      assert LeadsThen(mid, second[..n], second[n], s');
      var late :| Leads(mid, second[..n], late) && Moves(late, second[n], s');
      LeadsConcat(s, first, mid, second[..n], late);
      LeadsOn(s, first + second[..n], late, second[n], s');
      assert first + second[..n] + [second[n]] == first + second;
    }
  }

  lemma KnownIdMoves(s: State, t: nat, c: string)
    requires t !in s.submissions && BotId(c) && c in s.table
    ensures Leads(s, [Start(t, c)] + [Check(t)], s)
  {
    assert s.submissions[t := Checking(c)] - {t} == s.submissions;
    LeadsOn(s, [], s, Start(t, c), At(s, t, Checking(c)));
    assert [] + [Start(t, c)] == [Start(t, c)];
    LeadsOn(s, [Start(t, c)], At(s, t, Checking(c)), Check(t), s);
  }

  /** A whole submission: two steps for a client id the table knows, and otherwise the way to the broker and back. */
  function Submitting(known: bool, t: nat, c: string, row: Row, reply: Result<string, string>): seq<Step> {
    if known then [Start(t, c)] + [Check(t)] else Sending(t, c, row) + Answering(t, c, reply)
  }

  lemma SubmittingListsNothing(known: bool, t: nat, c: string, row: Row, reply: Result<string, string>)
    ensures NoListings(Submitting(known, t, c, row, reply))
  {
    match reply
    case Success(_) =>
    case Failure(_) =>
  }

  lemma SubmissionLeads(s: State, t: nat, c: string, row: Row, reply: Result<string, string>) returns (s': State)
    requires BotId(c) && t !in s.submissions && row.broker == None && (reply.Success? ==> reply.value !in s.broker)
    ensures s' == if c in s.table then s else Submitted(s, c, row, reply)
    ensures Leads(s, Submitting(c in s.table, t, c, row, reply), s')
  {
    if c in s.table {
      KnownIdMoves(s, t, c);
      return s;
    }
    s' := Submitted(s, c, row, reply);
    var sent := At(Sent(s, c, row), t, Waiting(c));
    Sends(s, t, c, row);
    match reply {
      case Success(id) => Accepted(s, t, c, row, id);
      case Failure(error) => Refused(s, t, c, row, error);
    }
    LeadsConcat(s, Sending(t, c, row), sent, Answering(t, c, reply), s');
  }

  /** The executor's call of submit does to the table and to the broker what those steps do, one after the other. */
  method SubmitIsARun(
    executor: OrderExecutor.OrderExecutor, o: OrderExecutor.NewOrder, now: string, reply: Result<string, string>,
    ghost s: State, ghost t: nat)
    returns (r: Result<OrderExecutor.Ack, string>, ghost s': State)
    requires executor.store.orders == s.table && executor.placed == s.placed
    requires BotId(o.client) && t !in s.submissions
    requires reply.Success? ==> reply.value !in s.broker
    modifies executor, executor.store
    ensures Leads(s, Submitting(o.client in s.table, t, o.client, OrderExecutor.PendingRow(o, now), reply), s')
    ensures executor.store.orders == s'.table && executor.placed == s'.placed && s'.submissions == s.submissions
    ensures Inv(s) ==> Inv(s')
  {
    s' := SubmissionLeads(s, t, o.client, OrderExecutor.PendingRow(o, now), reply);
    if Inv(s) {
      SubmittingListsNothing(o.client in s.table, t, o.client, OrderExecutor.PendingRow(o, now), reply);
      LeadsKeeps(s, Submitting(o.client in s.table, t, o.client, OrderExecutor.PendingRow(o, now), reply), s');
    }
    r := executor.Submit(o, now, reply);
  }

  // ----- the status poll

  function Polling(p: nat, c: string, status: Status): seq<Step> {
    [Read(p, c, status)] + [Update(p)] + [FlushPoll(p)]
  }

  function WithTable(s: State, t: Table): State {
    s.(table := t, durable := t)
  }

  function PolledAt(s: State, p: nat, poll: Poll): State {
    s.(polls := s.polls[p := poll])
  }

  lemma PollMoves(s: State, p: nat, c: string, status: Status)
    requires p !in s.polls && c in s.table && s.table[c].broker.Some?
    ensures Moves(s, Read(p, c, status), PolledAt(s, p, Deciding(c, status)))
    ensures Moves(PolledAt(s, p, Deciding(c, status)), Update(p),
                  PolledAt(s.(table := s.table[c := s.table[c].(status := status)]), p, Polled))
  {
    assert s.polls[p := Deciding(c, status)][p := Polled] == s.polls[p := Polled];
  }

  lemma FlushPollMoves(s: State, p: nat)
    requires p !in s.polls
    ensures Moves(PolledAt(s, p, Polled), FlushPoll(p), WithTable(s, s.table))
  {
    assert s.polls[p := Polled] - {p} == s.polls;
  }

  lemma PollLeads(s: State, p: nat, c: string, status: Status)
    requires p !in s.polls && c in s.table && s.table[c].broker.Some?
    ensures Leads(s, Polling(p, c, status), WithTable(s, s.table[c := s.table[c].(status := status)]))
  {
    var updated := s.(table := s.table[c := s.table[c].(status := status)]);
    PollMoves(s, p, c, status);
    FlushPollMoves(updated, p);
    ThreeSteps(s, Read(p, c, status), Update(p), FlushPoll(p),
               PolledAt(s, p, Deciding(c, status)), PolledAt(updated, p, Polled), WithTable(updated, updated.table));
  }

  lemma ThreeSteps(s: State, a: Step, b: Step, c: Step, s1: State, s2: State, s3: State)
    requires Moves(s, a, s1) && Moves(s1, b, s2) && Moves(s2, c, s3)
    ensures Leads(s, [a] + [b] + [c], s3)
  {
    LeadsOn(s, [], s, a, s1);
    assert [] + [a] == [a];
    LeadsOn(s, [a], s1, b, s2);
    LeadsOn(s, [a] + [b], s2, c, s3);
  }

  /** Polling rows in turn is a run that reads, updates and commits the rows whose orders have ended. */
  lemma {:induction false} PolledLeads(s: State, p: nat, visited: seq<string>, get: Lookup)
    returns (steps: seq<Step>, s': State)
    requires p !in s.polls && forall c :: c in visited ==> c in s.table
    ensures Leads(s, steps, s') && s'.table == PolledRows(s.table, visited, get) && s'.polls == s.polls
    ensures NoListings(steps)
  {
    if visited == [] {
      return [], s;
    }
    var n := |visited| - 1;
    var c := visited[n];
    steps, s' := PolledLeads(s, p, visited[..n], get);
    var mid, row := s', s'.table[c];
    var polled := PolledRow(row, get);
    if polled == row {
      assert s'.table[c := row] == s'.table;
    } else {
      PollLeads(mid, p, c, polled.status);
      s' := WithTable(mid, mid.table[c := polled]);
      LeadsConcat(s, steps, mid, Polling(p, c, polled.status), s');
      steps := steps + Polling(p, c, polled.status);
    }
  }

  /** The poll's call of sync_once is such a run. */
  method PollIsARun(feed: OrderSyncFeed, get: Lookup, ghost s: State, ghost p: nat)
    returns (ghost steps: seq<Step>, ghost s': State)
    requires feed.store.orders == s.table && p !in s.polls
    modifies feed, feed.store
    ensures Leads(s, steps, s') && feed.store.orders == s'.table
    ensures Inv(s) ==> Inv(s')
  {
    var visited := feed.SyncOnce(get);
    PolledRowsAll(s.table, visited, get);
    steps, s' := PolledLeads(s, p, visited, get);
    if Inv(s) {
      LeadsKeeps(s, steps, s');
    }
  }

  // ----- the history sync

  function Reflecting(u: nat, o: BrokerOrder, found: Option<string>, status: Status): seq<Step> {
    [List(u, o)] + [Select(u, found)] + [Write(u, status)] + [FlushUpsert(u)]
  }

  function UpsertingAt(s: State, u: nat, up: Upsert): State {
    s.(upserts := s.upserts[u := up])
  }

  lemma SelectMoves(s: State, u: nat, o: BrokerOrder, found: Option<string>)
    requires u !in s.upserts && Truthful(s, o) && SelectResult(s.table, o, found)
    ensures Moves(s, List(u, o), UpsertingAt(s, u, Listed(o)))
    ensures Moves(UpsertingAt(s, u, Listed(o)), Select(u, found), UpsertingAt(s, u, Chosen(o, found)))
  {
    assert s.upserts[u := Listed(o)][u := Chosen(o, found)] == s.upserts[u := Chosen(o, found)];
  }

  lemma WriteMoves(s: State, u: nat, o: BrokerOrder, found: Option<string>, status: Status)
    requires u !in s.upserts
    ensures var written := s.(table := WriteTable(s.table, o, found, status));
            && Moves(UpsertingAt(s, u, Chosen(o, found)), Write(u, status), UpsertingAt(written, u, Written))
            && Moves(UpsertingAt(written, u, Written), FlushUpsert(u), WithTable(s, written.table))
  {
    assert s.upserts[u := Chosen(o, found)][u := Written] == s.upserts[u := Written];
    assert s.upserts[u := Written] - {u} == s.upserts;
  }

  lemma UpsertLeads(s: State, u: nat, o: BrokerOrder, status: Status, t': Table) returns (found: Option<string>)
    requires u !in s.upserts && Truthful(s, o) && Upserted(s.table, o, status, t')
    ensures Leads(s, Reflecting(u, o, found, status), WithTable(s, t'))
    ensures SelectThenWrite(s.table, o, status, t', found)
  {
    UpsertIsSelectThenWrite(s.table, o, status, t');
    found :| SelectThenWrite(s.table, o, status, t', found);
    SelectMoves(s, u, o, found);
    WriteMoves(s, u, o, found, status);
    ThreeSteps(s, List(u, o), Select(u, found), Write(u, status),
               UpsertingAt(s, u, Listed(o)), UpsertingAt(s, u, Chosen(o, found)),
                   UpsertingAt(s.(table := t'), u, Written));
    LeadsOn(s, [List(u, o)] + [Select(u, found)] + [Write(u, status)],
            UpsertingAt(s.(table := t'), u, Written), FlushUpsert(u), WithTable(s, t'));
  }

  lemma UpsertKeeps(s: State, u: nat, o: BrokerOrder, found: Option<string>, status: Status)
    requires Inv(s) && u !in s.upserts && Truthful(s, o) && Timely(s, o) && SelectResult(s.table, o, found)
    ensures var s' := WithTable(s, WriteTable(s.table, o, found, status)); Inv(s') && Grows(s, s')
  {
    var written := s.(table := WriteTable(s.table, o, found, status));
    SelectMoves(s, u, o, found);
    WriteMoves(s, u, o, found, status);
    MovesKeeps(s, List(u, o), UpsertingAt(s, u, Listed(o)));
    MovesKeeps(UpsertingAt(s, u, Listed(o)), Select(u, found), UpsertingAt(s, u, Chosen(o, found)));
    MovesKeeps(UpsertingAt(s, u, Chosen(o, found)), Write(u, status), UpsertingAt(written, u, Written));
    MovesKeeps(UpsertingAt(written, u, Written), FlushUpsert(u), WithTable(s, written.table));
    SelectFindsOwner(s, o, found);
    WriteKeepsTable(s, o, found, status);
  }

  ghost predicate AllTimely(s: State, orders: seq<BrokerOrder>) {
    forall o :: o in orders ==> Truthful(s, o) && Timely(s, o)
  }

  /** A listing that was timely stays so while rows only gain names. */
  lemma TimelyKept(s: State, s': State, orders: seq<BrokerOrder>)
    requires Grows(s, s') && AllTimely(s, orders)
    ensures AllTimely(s', orders)
  {
  }

  /** Reflecting a truthful listing order by order is a run of listings, selects, writes and commits. */
  lemma {:induction false} ReflectedLeads(s: State, u: nat, orders: seq<BrokerOrder>, t': Table)
    returns (steps: seq<Step>, s': State)
    requires u !in s.upserts && ReflectedAll(s.table, orders, t') && forall o :: o in orders ==> Truthful(s, o)
    ensures Leads(s, steps, s') && s'.table == t' && s'.broker == s.broker && s'.upserts == s.upserts
    ensures Inv(s) && AllTimely(s, orders) ==> Inv(s') && Grows(s, s')
    decreases |orders|
  {
    if orders == [] {
      return [], s;
    }
    var n := |orders| - 1;
    var o := orders[n];
    assert o in orders;
    assert ReflectedThen(s.table, orders[..n], o, t');
    var table :| ReflectedAll(s.table, orders[..n], table) && Reflected(table, o, t');
    steps, s' := ReflectedLeads(s, u, orders[..n], table);
    var mid := s';
    match LocalStatus(o.status) {
      case None =>
      case Some(status) =>
        var found := UpsertLeads(mid, u, o, status, t');
        s' := WithTable(mid, t');
        LeadsConcat(s, steps, mid, Reflecting(u, o, found, status), s');
        steps := steps + Reflecting(u, o, found, status);
        if Inv(s) && AllTimely(s, orders) {
          TimelyKept(s, mid, orders);
          UpsertKeeps(mid, u, o, found, status);
        }
    }
  }

  /**
   The history feed's call of sync_once is such a run, when what it fetched is truthful; and when it is
   timely too, the protocol's invariant holds afterwards.
   */
  method HistorySyncIsARun(
    feed: OrderHistorySyncFeed, open: seq<BrokerOrder>, page: Pages, ghost s: State, ghost u: nat)
    returns (ghost steps: seq<Step>, ghost s': State)
    requires feed.store.orders == s.table && u !in s.upserts
    requires forall o :: o in Fetched(feed.backfilled, open, page) ==> Truthful(s, o)
    modifies feed, feed.store
    ensures Leads(s, steps, s') && feed.store.orders == s'.table
    ensures Inv(s) && AllTimely(s, Fetched(old(feed.backfilled), open, page)) ==> Inv(s')
  {
    ghost var fetched := Fetched(feed.backfilled, open, page);
    var _ := feed.SyncOnce(open, page);
    steps, s' := ReflectedLeads(s, u, fetched, feed.store.orders);
  }

  /** What one sync fetches. */
  function Fetched(backfilled: bool, open: seq<BrokerOrder>, page: Pages): seq<BrokerOrder> {
    open + if backfilled then page(None).0 else Walk(page, None, MAX_BACKFILL_PAGES).0
  }

  // ----- the duplicate is reachable

  /** A run so far, and one more step that lists nothing. */
  lemma RunOn(trace: seq<State>, steps: seq<Step>, step: Step, s': State)
    returns (trace': seq<State>, steps': seq<Step>)
    requires IsRun(trace, steps) && Moves(trace[|steps|], step, s') && !step.List?
    ensures IsRun(trace', steps') && |steps'| == |steps| + 1 && trace'[|steps'|] == s'
  {
    trace', steps' := trace + [s'], steps + [step];
  }

  /** One submission, accepted but not yet acknowledged. */
  function InFlight(c: string, row: Row, id: string): State {
    var s := Sent(INIT, c, row);
    At(s.(broker := map[id := c], requests := s.requests - {c}), 0, Waiting(c))
  }

  lemma InFlightReachable(c: string, row: Row, id: string) returns (trace: seq<State>, steps: seq<Step>)
    requires BotId(c) && row.broker == None
    ensures IsRun(trace, steps) && |steps| == 6 && trace[6] == InFlight(c, row, id)
  {
    SendingMoves(INIT, 0, c, row);
    var inserted := INIT.(table := map[c := row]);
    assert INIT.table[c := row] == map[c := row];
    CommitMoves(inserted, 0, c);
    var committed := inserted.(durable := map[c := row]);
    CommitMoves(committed, 0, c);
    AckMoves(Sent(INIT, c, row), 0, c, id);
    assert Sent(INIT, c, row).broker[id := c] == map[id := c];
    var s1, s2, s3 := At(INIT, 0, Checking(c)), At(INIT, 0, Inserting(c)), At(inserted, 0, Committing(c));
    var s4, s5, s6 := At(committed, 0, Calling(c)), At(Sent(INIT, c, row), 0, Waiting(c)), InFlight(c, row, id);
    trace, steps := [INIT], [];
    trace, steps := RunOn(trace, steps, Start(0, c), s1);
    trace, steps := RunOn(trace, steps, Check(0), s2);
    trace, steps := RunOn(trace, steps, Insert(0, row), s3);
    trace, steps := RunOn(trace, steps, Commit(0), s4);
    trace, steps := RunOn(trace, steps, Place(0), s5);
    trace, steps := RunOn(trace, steps, Accept(c, id), s6);
  }

  /**
   Any single submission of the bot gets there: listed without its client id before the acknowledgement is
   recorded, its order ends up in two rows.
   */
  lemma DuplicateReachable(
    c: string, row: Row, o: BrokerOrder, status: Status) returns (trace: seq<State>, steps: seq<Step>)
    requires BotId(c) && row.broker == None && o.client == None
    ensures IsRun(trace, steps) && |steps| == 6
    ensures var s := trace[6];
            && Truthful(s, o) && !Timely(s, o) && SelectResult(s.table, o, None) && Can(s, Ack(0, o.id))
            && (var after := WithStatus(UpsertNow(s, o, None, status), c, OrderTable.Submitted, Some(o.id));
                && c != NativeId(o.id) && c in after && NativeId(o.id) in after
                && after[c].broker == after[NativeId(o.id)].broker == Some(o.id) && !UniqueBrokerIds(after))
  {
    trace, steps := InFlightReachable(c, row, o.id);
    assert NATIVE_PREFIX <= NativeId(o.id);
    RunKeeps(trace, steps, 6);
    UntimelyDuplicates(trace[6], 0, o, None, status);
  }
}
