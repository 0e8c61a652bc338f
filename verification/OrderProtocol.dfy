/**
 The order table as a shared object. Submissions, history upserts and status polls are tasks that
 advance by the steps between two awaits; they write one connection, whose commits make everything
 written so far durable; the broker accepts orders, and takes orders placed elsewhere, on its own; a
 crash forgets every task and everything not yet committed. A run is any sequence of such steps.
 */
module OrderProtocol {
  import opened OrderTable
  import opened Wrappers

  /** A submission, by what it does next. */
  datatype Submission =
    | Checking(client: string)    // look for an existing row
    | Inserting(client: string)   // found none: insert the pending row
    | Committing(client: string)  // commit it
    | Calling(client: string)     // send the order
    | Waiting(client: string)     // for the broker's answer
    | Flushing(client: string)    // commit what the answer wrote

  /** One listed order on its way into the table. */
  datatype Upsert =
    | Listed(order: BrokerOrder)
    | Chosen(order: BrokerOrder, target: Option<string>)
    | Written

  datatype Poll = Deciding(client: string, status: Status) | Polled

  datatype State = State(
    table: Table,                    // what the connection sees
    durable: Table,                  // what survives a crash
    broker: map<string, string>,     // broker id to the client id it was placed under, "" for app orders
    requests: set<string>,           // orders sent and not yet decided by the broker
    placed: seq<string>,             // every place_order call, in order
    submissions: map<nat, Submission>,
    upserts: map<nat, Upsert>,
    polls: map<nat, Poll>)

  const INIT := State(map[], map[], map[], {}, [], map[], map[], map[])

  datatype Step =
    | Start(t: nat, client: string) | Check(t: nat) | Insert(t: nat, row: Row) | Commit(t: nat) | Place(t: nat)
    | Accept(client: string, id: string) | Ack(t: nat, id: string) | Fail(t: nat) | Flush(t: nat)
    | AppOrder(id: string)
    | List(u: nat, order: BrokerOrder) | Select(u: nat, found: Option<string>)
    | Write(u: nat, status: Status) | FlushUpsert(u: nat)
    | Read(p: nat, client: string, status: Status) | Update(p: nat) | FlushPoll(p: nat)
    | Crash

  /** A client id the bot may draw: never empty, never of the form reserved for app orders. */
  predicate BotId(client: string) {
    client != "" && !(NATIVE_PREFIX <= client)
  }

  /** The client id a broker order belongs under. */
  function OwnerOf(broker: map<string, string>, id: string): string
    requires id in broker
  {
    if broker[id] != "" then broker[id] else NativeId(id)
  }

  /** The broker echoes an order's own client id or nothing. */
  predicate Truthful(s: State, o: BrokerOrder) {
    o.id in s.broker && (o.client == None || o.client == Some(s.broker[o.id]))
  }

  /** The echo-or-after-ack assumption: the listing is filed under its owner, or the owner's row already names it. */
  predicate Timely(s: State, o: BrokerOrder)
    requires o.id in s.broker
  {
    var owner := OwnerOf(s.broker, o.id);
    Key(o) == owner || (owner in s.table && s.table[owner].broker == Some(o.id))
  }

  predicate SelectResult(t: Table, o: BrokerOrder, found: Option<string>) {
    match found
    case Some(c) => Matches(t, c, Key(o), o.id)
    case None => forall c :: c in t ==> !Matches(t, c, Key(o), o.id)
  }

  /** When a step can happen at all. */
  predicate Can(s: State, step: Step) {
    match step
    case Start(t, client) => t !in s.submissions && BotId(client)
    case Check(t) => t in s.submissions && s.submissions[t].Checking?
    case Insert(t, row) => t in s.submissions && s.submissions[t].Inserting? && row.broker == None
    case Commit(t) => t in s.submissions && s.submissions[t].Committing?
    case Place(t) => t in s.submissions && s.submissions[t].Calling?
    case Accept(client, id) => client in s.requests && id !in s.broker
    case Ack(t, id) =>
      t in s.submissions && s.submissions[t].Waiting? && id in s.broker && s.broker[id] == s.submissions[t].client
    case Fail(t) => t in s.submissions && s.submissions[t].Waiting?
    case Flush(t) => t in s.submissions && s.submissions[t].Flushing?
    case AppOrder(id) => id !in s.broker
    case List(u, o) => u !in s.upserts && Truthful(s, o)
    case Select(u, found) => u in s.upserts && s.upserts[u].Listed? && SelectResult(s.table, s.upserts[u].order, found)
    case Write(u, status) => u in s.upserts && s.upserts[u].Chosen?
    case FlushUpsert(u) => u in s.upserts && s.upserts[u].Written?
    case Read(p, client, status) => p !in s.polls && client in s.table && s.table[client].broker.Some?
    case Update(p) => p in s.polls && s.polls[p].Deciding?
    case FlushPoll(p) => p in s.polls && s.polls[p].Polled?
    case Crash => true
  }

  function Go(s: State, t: nat, next: Submission): map<nat, Submission> {
    s.submissions[t := next]
  }

  /** The upsert's second statement: UPDATE the row found, or INSERT, which fails on a taken key. */
  function WriteTable(table: Table, o: BrokerOrder, target: Option<string>, status: Status): Table {
    match target
    case Some(c) => if c in table then table[c := Overwritten(table[c], o, status)] else table
    case None => if Key(o) in table then table else table[Key(o) := Inserted(o, status)]
  }

  function Apply(s: State, step: Step): State
    requires Can(s, step)
  {
    match step
    case Start(t, client) => s.(submissions := Go(s, t, Checking(client)))
    case Check(t) =>
      var c := s.submissions[t].client;
      s.(submissions := if c in s.table then s.submissions - {t} else Go(s, t, Inserting(c)))
    case Insert(t, row) =>
      var c := s.submissions[t].client;
      if c in s.table then s.(submissions := s.submissions - {t})
      else s.(table := s.table[c := row], submissions := Go(s, t, Committing(c)))
    case Commit(t) => s.(durable := s.table, submissions := Go(s, t, Calling(s.submissions[t].client)))
    case Place(t) =>
      var c := s.submissions[t].client;
      s.(placed := s.placed + [c], requests := s.requests + {c}, submissions := Go(s, t, Waiting(c)))
    case Accept(client, id) => s.(broker := s.broker[id := client], requests := s.requests - {client})
    case Ack(t, id) =>
      var c := s.submissions[t].client;
      s.(table := WithStatus(s.table, c, Submitted, Some(id)), submissions := Go(s, t, Flushing(c)))
    case Fail(t) =>
      var c := s.submissions[t].client;
      s.(table := WithStatus(s.table, c, Rejected, None), submissions := Go(s, t, Flushing(c)))
    case Flush(t) => s.(durable := s.table, submissions := s.submissions - {t})
    case AppOrder(id) => s.(broker := s.broker[id := ""])
    case List(u, o) => s.(upserts := s.upserts[u := Listed(o)])
    case Select(u, found) => s.(upserts := s.upserts[u := Chosen(s.upserts[u].order, found)])
    case Write(u, status) =>
      s.(table := WriteTable(s.table, s.upserts[u].order, s.upserts[u].target, status),
          upserts := s.upserts[u := Written])
    case FlushUpsert(u) => s.(durable := s.table, upserts := s.upserts - {u})
    case Read(p, client, status) => s.(polls := s.polls[p := Deciding(client, status)])
    case Update(p) =>
      s.(table := WithStatus(s.table, s.polls[p].client, s.polls[p].status, None), polls := s.polls[p := Polled])
    case FlushPoll(p) => s.(durable := s.table, polls := s.polls - {p})
    case Crash => s.(table := s.durable, submissions := map[], upserts := map[], polls := map[])
  }

  // ----- the invariant

  /** Every row that names a broker order names its own. */
  ghost predicate Naming(t: Table, broker: map<string, string>) {
    forall c :: c in t && t[c].broker.Some? ==> t[c].broker.value in broker && OwnerOf(broker, t[c].broker.value) == c
  }

  /** Rows filed for app orders are born naming one. */
  ghost predicate NativeNamed(t: Table) {
    forall c :: c in t && t[c].broker == None ==> BotId(c)
  }

  ghost predicate NoRepeats(xs: seq<string>) {
    forall i, j :: 0 <= i < j < |xs| ==> xs[i] != xs[j]
  }

  ghost predicate BrokerOk(broker: map<string, string>, placed: seq<string>, requests: set<string>) {
    && (forall c :: c in requests ==> c in placed)
    && (forall id :: id in broker && broker[id] != "" ==> broker[id] in placed && broker[id] !in requests)
    && (forall a, b :: a in broker && b in broker && broker[a] == broker[b] != "" ==> a == b)
    && (forall c :: c in placed ==> BotId(c))
  }

  /** From its insert to the broker's answer, a submission owns its client id. */
  predicate Owns(sub: Submission) {
    sub.Committing? || sub.Calling? || sub.Waiting?
  }

  ghost predicate SubmissionOk(sub: Submission, table: Table, durable: Table, placed: seq<string>) {
    && BotId(sub.client)
    && (sub.Committing? ==> sub.client in table && sub.client !in placed)
    && (sub.Calling? ==> sub.client in durable && sub.client !in placed)
    && (sub.Waiting? ==> sub.client in placed)
  }

  ghost predicate SubmissionsOk(s: State) {
    && (forall t :: t in s.submissions ==> SubmissionOk(s.submissions[t], s.table, s.durable, s.placed))
    && (forall t, t' | t in s.submissions && t' in s.submissions && t != t' ::
          Owns(s.submissions[t]) && Owns(s.submissions[t']) ==> s.submissions[t].client != s.submissions[t'].client)
  }

  ghost predicate UpsertOk(up: Upsert, s: State) {
    match up
    case Listed(o) => Truthful(s, o) && Timely(s, o)
    case Chosen(o, Some(c)) => o.id in s.broker && OwnerOf(s.broker, o.id) == c
    case Chosen(o, None) => o.id in s.broker && OwnerOf(s.broker, o.id) == Key(o)
    case Written => true
  }

  ghost predicate UpsertsOk(s: State) {
    forall u :: u in s.upserts ==> UpsertOk(s.upserts[u], s)
  }

  ghost predicate TablesOk(s: State) {
    && Naming(s.table, s.broker) && Naming(s.durable, s.broker)
    && NativeNamed(s.table) && NativeNamed(s.durable)
    && s.durable.Keys <= s.table.Keys
  }

  ghost predicate PlacedOk(s: State) {
    NoRepeats(s.placed) && forall c :: c in s.placed ==> c in s.durable
  }

  ghost predicate Inv(s: State) {
    TablesOk(s) && PlacedOk(s) && BrokerOk(s.broker, s.placed, s.requests) && SubmissionsOk(s) && UpsertsOk(s)
  }

  // ----- each step keeps it

  lemma OwnersDistinct(broker: map<string, string>, placed: seq<string>, requests: set<string>, a: string, b: string)
    requires BrokerOk(broker, placed, requests) && a in broker && b in broker
    requires OwnerOf(broker, a) == OwnerOf(broker, b)
    ensures a == b
  {
    if broker[a] == "" && broker[b] == "" {
      NativeIdInjective(a, b);
    }
  }

  /** Rows stay, and a row that names a broker order keeps naming it; broker orders keep their clients. */
  ghost predicate Grows(s: State, s': State) {
    && (forall c :: c in s.table ==>
          c in s'.table && (s.table[c].broker.Some? ==> s'.table[c].broker == s.table[c].broker))
    && (forall id :: id in s.broker ==> id in s'.broker && s'.broker[id] == s.broker[id])
  }

  lemma UpsertsKept(s: State, s': State)
    requires UpsertsOk(s) && Grows(s, s')
    requires forall u :: u in s'.upserts ==> s'.upserts[u].Written? || (u in s.upserts && s'.upserts[u] == s.upserts[u])
    ensures UpsertsOk(s')
  {
    forall u | u in s'.upserts ensures UpsertOk(s'.upserts[u], s') {
      if !s'.upserts[u].Written? {
        assert UpsertOk(s.upserts[u], s);
      }
    }
  }

  lemma SubmissionsKept(s: State, s': State)
    requires SubmissionsOk(s) && Grows(s, s') && s'.placed == s.placed && s.durable.Keys <= s'.durable.Keys
    requires s'.submissions == s.submissions
    ensures SubmissionsOk(s')
  {
    forall t | t in s'.submissions ensures SubmissionOk(s'.submissions[t], s'.table, s'.durable, s'.placed) {
      assert SubmissionOk(s.submissions[t], s.table, s.durable, s.placed);
    }
  }

  lemma StartKeeps(s: State, t: nat, client: string)
    requires Inv(s) && Can(s, Start(t, client))
    ensures Inv(Apply(s, Start(t, client)))
  {
    UpsertsKept(s, Apply(s, Start(t, client)));
  }

  lemma CheckKeeps(s: State, t: nat)
    requires Inv(s) && Can(s, Check(t))
    ensures Inv(Apply(s, Check(t)))
  {
    UpsertsKept(s, Apply(s, Check(t)));
  }

  /** The insert succeeds only on a free client id, which nobody owns and which was never placed. */
  lemma InsertOwns(s: State, t: nat, row: Row)
    requires Inv(s) && Can(s, Insert(t, row)) && s.submissions[t].client !in s.table
    ensures SubmissionsOk(Apply(s, Insert(t, row)))
  {
    var s', c := Apply(s, Insert(t, row)), s.submissions[t].client;
    forall u | u in s'.submissions ensures SubmissionOk(s'.submissions[u], s'.table, s'.durable, s'.placed) {
      assert SubmissionOk(s.submissions[u], s.table, s.durable, s.placed);
    }
    forall u | u in s.submissions && u != t && Owns(s.submissions[u]) ensures s.submissions[u].client != c {
      assert SubmissionOk(s.submissions[u], s.table, s.durable, s.placed);
    }
  }

  lemma InsertKeeps(s: State, t: nat, row: Row)
    requires Inv(s) && Can(s, Insert(t, row))
    ensures Inv(Apply(s, Insert(t, row)))
  {
    if s.submissions[t].client !in s.table {
      FreshInsertKeeps(s, t, row);
    } else {
      UpsertsKept(s, Apply(s, Insert(t, row)));
    }
  }

  lemma FreshInsertKeeps(s: State, t: nat, row: Row)
    requires Inv(s) && Can(s, Insert(t, row)) && s.submissions[t].client !in s.table
    ensures Inv(Apply(s, Insert(t, row)))
  {
    UpsertsKept(s, Apply(s, Insert(t, row)));
    assert SubmissionOk(s.submissions[t], s.table, s.durable, s.placed);
    InsertOwns(s, t, row);
  }

  lemma CommitStepKeeps(s: State, step: Step)
    requires Inv(s) && Can(s, step) && (step.Commit? || step.Flush? || step.FlushUpsert? || step.FlushPoll?)
    ensures Inv(Apply(s, step))
  {
    UpsertsKept(s, Apply(s, step));
  }

  /** The only step that sends an order: its row is durable, and it was never sent before. */
  lemma PlaceKeeps(s: State, t: nat)
    requires Inv(s) && Can(s, Place(t))
    ensures s.submissions[t].client in s.durable && s.submissions[t].client !in s.placed
    ensures Inv(Apply(s, Place(t)))
  {
    var s', c := Apply(s, Place(t)), s.submissions[t].client;
    assert SubmissionOk(s.submissions[t], s.table, s.durable, s.placed);
    UpsertsKept(s, s');
    forall u | u in s'.submissions ensures SubmissionOk(s'.submissions[u], s'.table, s'.durable, s'.placed) {
      assert SubmissionOk(s.submissions[u], s.table, s.durable, s.placed);
    }
    assert SubmissionsOk(s');
    assert PlacedOk(s');
    assert BrokerOk(s'.broker, s'.placed, s'.requests);
  }

  lemma AcceptKeeps(s: State, client: string, id: string)
    requires Inv(s) && Can(s, Accept(client, id))
    ensures Inv(Apply(s, Accept(client, id)))
  {
    var s' := Apply(s, Accept(client, id));
    UpsertsKept(s, s');
    SubmissionsKept(s, s');
    NamingKept(s.table, s.broker, s'.broker);
    NamingKept(s.durable, s.broker, s'.broker);
  }

  lemma AppOrderKeeps(s: State, id: string)
    requires Inv(s) && Can(s, AppOrder(id))
    ensures Inv(Apply(s, AppOrder(id)))
  {
    var s' := Apply(s, AppOrder(id));
    UpsertsKept(s, s');
    SubmissionsKept(s, s');
    NamingKept(s.table, s.broker, s'.broker);
    NamingKept(s.durable, s.broker, s'.broker);
  }

  lemma NamingKept(t: Table, broker: map<string, string>, broker': map<string, string>)
    requires Naming(t, broker) && forall id :: id in broker ==> id in broker' && broker'[id] == broker[id]
    ensures Naming(t, broker')
  {
  }

  /** Recording an acknowledgement: the row of a placed order is still there, and names nothing else. */
  lemma AckKeeps(s: State, t: nat, id: string)
    requires Inv(s) && Can(s, Ack(t, id))
    ensures Inv(Apply(s, Ack(t, id)))
  {
    var s', c := Apply(s, Ack(t, id)), s.submissions[t].client;
    assert SubmissionOk(s.submissions[t], s.table, s.durable, s.placed);
    if s.table[c].broker.Some? {
      OwnersDistinct(s.broker, s.placed, s.requests, s.table[c].broker.value, id);
    }
    UpsertsKept(s, s');
    AnswerKeepsSubmissions(s, s', t);
  }

  lemma FailKeeps(s: State, t: nat)
    requires Inv(s) && Can(s, Fail(t))
    ensures Inv(Apply(s, Fail(t)))
  {
    var s' := Apply(s, Fail(t));
    UpsertsKept(s, s');
    AnswerKeepsSubmissions(s, s', t);
  }

  lemma AnswerKeepsSubmissions(s: State, s': State, t: nat)
    requires SubmissionsOk(s) && Grows(s, s') && s'.placed == s.placed && s'.durable == s.durable
    requires t in s.submissions && s'.submissions == s.submissions[t := Flushing(s.submissions[t].client)]
    ensures SubmissionsOk(s')
  {
    forall u | u in s'.submissions ensures SubmissionOk(s'.submissions[u], s'.table, s'.durable, s'.placed) {
      assert SubmissionOk(s.submissions[u], s.table, s.durable, s.placed);
    }
  }

  lemma ListKeeps(s: State, u: nat, o: BrokerOrder)
    requires Inv(s) && Can(s, List(u, o)) && Timely(s, o)
    ensures Inv(Apply(s, List(u, o)))
  {
    var s' := Apply(s, List(u, o));
    forall v | v in s'.upserts ensures UpsertOk(s'.upserts[v], s') {
      if v != u {
        assert UpsertOk(s.upserts[v], s);
      }
    }
  }

  /** The SELECT finds the owner's row, or nothing, and then the listing's key is the owner. */
  lemma SelectFindsOwner(s: State, o: BrokerOrder, found: Option<string>)
    requires Inv(s) && Truthful(s, o) && Timely(s, o) && SelectResult(s.table, o, found)
    ensures UpsertOk(Chosen(o, found), s)
  {
    var owner := OwnerOf(s.broker, o.id);
    match found
    case Some(c) =>
      if s.table[c].broker != Some(o.id) && c != owner {
        assert c == NativeId(o.id) && s.broker[o.id] != "";
        NativeNames(s, c, o.id);
      }
    case None =>
  }

  /** A listing is timely exactly when it is of an app order, echoes its client id, or follows the recorded answer. */
  lemma TimelyWhen(s: State, o: BrokerOrder)
    requires Inv(s) && Truthful(s, o)
    ensures var client := s.broker[o.id];
            Timely(s, o) <==>
              client == "" || o.client == Some(client) || (client in s.table && s.table[client].broker == Some(o.id))
  {
    assert NATIVE_PREFIX <= NativeId(o.id);
  }

  /** A row under the client id of an app order names exactly that order, which was placed by nobody else. */
  lemma NativeNames(s: State, c: string, id: string)
    requires Inv(s) && c in s.table && c == NativeId(id)
    ensures s.table[c].broker == Some(id) && s.broker[id] == ""
  {
    assert NATIVE_PREFIX <= c;
    var named := s.table[c].broker.value;
    if s.broker[named] == "" {
      NativeIdInjective(named, id);
    }
  }

  lemma SelectKeeps(s: State, u: nat, found: Option<string>)
    requires Inv(s) && Can(s, Select(u, found))
    ensures Inv(Apply(s, Select(u, found)))
  {
    var s', o := Apply(s, Select(u, found)), s.upserts[u].order;
    assert UpsertOk(s.upserts[u], s);
    SelectFindsOwner(s, o, found);
    forall v | v in s'.upserts ensures UpsertOk(s'.upserts[v], s') {
      if v != u {
        assert UpsertOk(s.upserts[v], s);
      }
    }
  }

  lemma WriteKeepsTable(s: State, o: BrokerOrder, target: Option<string>, status: Status)
    requires Inv(s) && UpsertOk(Chosen(o, target), s)
    ensures var t' := WriteTable(s.table, o, target, status);
            Naming(t', s.broker) && NativeNamed(t')
            && forall c :: c in s.table ==> c in t' && (s.table[c].broker.Some? ==> t'[c].broker == s.table[c].broker)
  {
    match target
    case Some(c) =>
      if c in s.table && s.table[c].broker.Some? {
        OwnersDistinct(s.broker, s.placed, s.requests, s.table[c].broker.value, o.id);
      }
    case None =>
  }

  lemma WriteKeeps(s: State, u: nat, status: Status)
    requires Inv(s) && Can(s, Write(u, status))
    ensures Inv(Apply(s, Write(u, status)))
  {
    var s' := Apply(s, Write(u, status));
    assert UpsertOk(s.upserts[u], s);
    WriteKeepsTable(s, s.upserts[u].order, s.upserts[u].target, status);
    UpsertsKept(s, s');
    SubmissionsKept(s, s');
  }

  lemma ReadKeeps(s: State, step: Step)
    requires Inv(s) && Can(s, step) && step.Read?
    ensures Inv(Apply(s, step))
  {
    UpsertsKept(s, Apply(s, step));
  }

  lemma UpdateKeeps(s: State, step: Step)
    requires Inv(s) && Can(s, step) && step.Update?
    ensures Inv(Apply(s, step))
  {
    var s' := Apply(s, step);
    UpsertsKept(s, s');
    SubmissionsKept(s, s');
  }

  lemma CrashKeeps(s: State)
    requires Inv(s)
    ensures Inv(Apply(s, Crash))
  {
  }

  // ----- whole runs

  /** A step of a run: possible, and when it is a listing, one that honours the echo-or-after-ack assumption. */
  predicate Allowed(s: State, step: Step) {
    Can(s, step) && (step.List? ==> Timely(s, step.order))
  }

  lemma StepKeeps(s: State, step: Step)
    requires Inv(s) && Allowed(s, step)
    ensures Inv(Apply(s, step))
  {
    if step.Start? || step.Check? || step.Insert? || step.Place? || step.Ack? || step.Fail? {
      SubmissionStepKeeps(s, step);
    } else if step.Accept? || step.AppOrder? || step.Crash? {
      WorldStepKeeps(s, step);
    } else {
      FeedStepKeeps(s, step);
    }
  }

  lemma WorldStepKeeps(s: State, step: Step)
    requires Inv(s) && Can(s, step) && (step.Accept? || step.AppOrder? || step.Crash?)
    ensures Inv(Apply(s, step))
  {
    match step
    case Accept(client, id) => AcceptKeeps(s, client, id);
    case AppOrder(id) => AppOrderKeeps(s, id);
    case Crash => CrashKeeps(s);
  }

  lemma SubmissionStepKeeps(s: State, step: Step)
    requires Inv(s) && Can(s, step)
    requires step.Start? || step.Check? || step.Insert? || step.Place? || step.Ack? || step.Fail?
    ensures Inv(Apply(s, step))
  {
    match step
    case Start(t, client) => StartKeeps(s, t, client);
    case Check(t) => CheckKeeps(s, t);
    case Insert(t, row) => InsertKeeps(s, t, row);
    case Place(t) => PlaceKeeps(s, t);
    case Ack(t, id) => AckKeeps(s, t, id);
    case Fail(t) => FailKeeps(s, t);
  }

  lemma FeedStepKeeps(s: State, step: Step)
    requires Inv(s) && Allowed(s, step)
    requires step.Commit? || step.Flush? || step.FlushUpsert? || step.FlushPoll?
          || step.List? || step.Select? || step.Write? || step.Read? || step.Update?
    ensures Inv(Apply(s, step))
  {
    match step
    case List(u, o) => ListKeeps(s, u, o);
    case Select(u, found) => SelectKeeps(s, u, found);
    case Write(u, status) => WriteKeeps(s, u, status);
    case Read(_, _, _) => ReadKeeps(s, step);
    case Update(_) => UpdateKeeps(s, step);
    case _ => CommitStepKeeps(s, step);
  }

  /** `trace` is a run from the empty system: trace[0] is the start and each step leads to the next state. */
  ghost predicate IsRun(trace: seq<State>, steps: seq<Step>) {
    && |trace| == |steps| + 1 && trace[0] == INIT
    && forall i :: 0 <= i < |steps| ==> Allowed(trace[i], steps[i]) && trace[i + 1] == Apply(trace[i], steps[i])
  }

  lemma {:induction false} RunKeeps(trace: seq<State>, steps: seq<Step>, i: nat)
    requires IsRun(trace, steps) && i < |trace|
    ensures Inv(trace[i])
  {
    if i == 0 {
    } else {
      RunKeeps(trace, steps, i - 1);
      StepKeeps(trace[i - 1], steps[i - 1]);
    }
  }

  ghost predicate UniqueBrokerIds(t: Table) {
    forall c, d :: c in t && d in t && t[c].broker.Some? && t[c].broker == t[d].broker ==> c == d
  }

  /**
   In every interleaving: no two rows ever share a broker id, a row that names a broker order names
   its own, in the live table and in what a crash would leave.
   */
  lemma NoSharedBrokerIds(trace: seq<State>, steps: seq<Step>, i: nat)
    requires IsRun(trace, steps) && i < |trace|
    ensures UniqueBrokerIds(trace[i].table) && UniqueBrokerIds(trace[i].durable)
    ensures Naming(trace[i].table, trace[i].broker) && Naming(trace[i].durable, trace[i].broker)
  {
    RunKeeps(trace, steps, i);
  }

  /**
   In every interleaving, crashes included: no client id is sent to the broker twice, it is sent only
   when its row is already durable, and the broker never holds two orders of one client id.
   */
  lemma AtMostOnePlacement(trace: seq<State>, steps: seq<Step>, i: nat)
    requires IsRun(trace, steps) && i < |trace|
    ensures NoRepeats(trace[i].placed)
    ensures i < |steps| && steps[i].Place? ==>
              var c := trace[i].submissions[steps[i].t].client;
              c in trace[i].durable && c !in trace[i].placed && trace[i + 1].placed == trace[i].placed + [c]
    ensures forall a, b ::
              a in trace[i].broker && b in trace[i].broker && trace[i].broker[a] == trace[i].broker[b] != "" ==> a == b
  {
    RunKeeps(trace, steps, i);
    if i < |steps| && steps[i].Place? {
      PlaceKeeps(trace[i], steps[i].t);
    }
  }

  // ----- the assumption is exact

  /** What one listing does when nothing runs in between. */
  function UpsertNow(s: State, o: BrokerOrder, found: Option<string>, status: Status): Table {
    WriteTable(s.table, o, found, status)
  }

  /** A listing leaves every row naming its own order if and only if it is timely. */
  lemma TimelyExact(s: State, o: BrokerOrder, found: Option<string>, status: Status)
    requires Inv(s) && Truthful(s, o) && SelectResult(s.table, o, found)
    ensures Naming(UpsertNow(s, o, found, status), s.broker) <==> Timely(s, o)
  {
    var t' := UpsertNow(s, o, found, status);
    if Timely(s, o) {
      SelectFindsOwner(s, o, found);
      WriteKeepsTable(s, o, found, status);
    } else {
      assert Key(o) == NativeId(o.id) && s.broker[o.id] != "";
      if Key(o) in s.table {
        NativeNames(s, Key(o), o.id);
      }
      match found {
        case Some(_) =>
        case None => assert Key(o) in t' && t'[Key(o)].broker == Some(o.id);
      }
    }
  }

  /** And an untimely listing followed by the acknowledgement puts one broker id in two rows. */
  lemma UntimelyDuplicates(s: State, t: nat, o: BrokerOrder, found: Option<string>, status: Status)
    requires Inv(s) && Can(s, Ack(t, o.id)) && Truthful(s, o) && SelectResult(s.table, o, found) && !Timely(s, o)
    ensures var c, table := s.submissions[t].client, UpsertNow(s, o, found, status);
            var after := WithStatus(table, c, Submitted, Some(o.id));
            c != NativeId(o.id) && c in after && NativeId(o.id) in after
            && after[c].broker == after[NativeId(o.id)].broker == Some(o.id)
  {
    assert SubmissionOk(s.submissions[t], s.table, s.durable, s.placed);
    assert Key(o) == NativeId(o.id) && s.broker[o.id] != "";
    if Key(o) in s.table {
      NativeNames(s, Key(o), o.id);
    }
  }
}
