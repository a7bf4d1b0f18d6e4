/**
 The two exceptions to the recorded chain exclude each other for a file, in runs in which no version is scanned while
 the dataset has an inbox row.
 */
module Exceptions {
  import opened Base
  import opened BrokerState
  import opened BrokerInvariants
  import opened BrokerGuarantees
  import opened ClientState
  import opened SyncSystem
  import opened SyncInvariants
  import opened SyncGuarantees
  import opened Interference

  /** Where a file has an applied row, its outbox version is not on the recorded head. */
  ghost predicate RowsPassOutbox(c: Client) {
    forall id, o | AppliedRow(c, id) && o in c.outbox && c.outbox[o].key == c.inbox[id].manifest.key ::
      c.outbox[o].parent != Recorded(c, c.outbox[o].key)
  }

  /** The device scans a new version only when the dataset has no inbox row. */
  ghost predicate ScansClear(s: System, e: Event, d: Device) {
    e.Snapshots? && e.d == d && d in s.clients ==> NoRowOf(s.clients[d], e.m.key.dataset)
  }

  ghost predicate ScansAfterRows(s: System, events: seq<Event>, d: Device)
    decreases |events|
  {
    events == [] || (ScansClear(s, events[0], d) && ScansAfterRows(Step(s, events[0]), events[1..], d))
  }

  lemma ScannedPasses(c: Client, m: Manifest)
    requires RowsPassOutbox(c) && NoRowOf(c, m.key.dataset)
    ensures RowsPassOutbox(Queued(c, m))
  {
  }

  lemma AnnouncedPasses(q: Queue, d: Device, c: Client, id: JobId)
    requires RowsPassOutbox(c) && OutboxInOrder(q, d, c) && id in c.outbox
    ensures RowsPassOutbox(Announced(c, c.outbox[id]))
  {
    hide Truthful, Holding, Upto, Overtaken;
  }

  /** Outbox versions of a file stem from before the version that is accepted now. */
  lemma AcceptedPasses(q: Queue, d: Device, c: Client, id: JobId)
    requires RowsPassOutbox(c) && OutboxInOrder(q, d, c) && RowsInOrder(q, d, c) && HeadsCommitted(q, c) && Parented(q.jobs)
    requires id in c.inbox && c.inbox[id].phase.Ready?
    ensures RowsPassOutbox(Accepted(c, c.inbox[id].manifest))
  {
    var m := c.inbox[id].manifest;
    NextRow(q, d, c, id);
    OutboxParents(q, d, c, m.key);
    hide OutboxInOrder, RowsInOrder, HeadsCommitted, Parented, Upto, RowsPassOutbox;
    AheadOfOutbox(c, Accepted(c, m), m, Upto(q, c, m.key));
  }

  lemma AheadOfOutbox(c: Client, c': Client, m: Manifest, upto: seq<JobId>)
    requires RowsPassOutbox(c) && m.id !in upto && c'.outbox == c.outbox && c'.files == c.files[m.key := m]
    requires m.id in c.inbox && c.inbox[m.id].manifest == m
    requires c'.inbox == c.inbox[m.id := c.inbox[m.id].(phase := Applied)]
    requires forall o | o in c.outbox && c.outbox[o].key == m.key && c.outbox[o].parent.Some? :: c.outbox[o].parent.value in upto
    ensures RowsPassOutbox(c')
  {
    forall a, o | AppliedRow(c', a) && o in c'.outbox && c'.outbox[o].key == c'.inbox[a].manifest.key
      ensures c'.outbox[o].parent != Recorded(c', c'.outbox[o].key)
    {
      if c'.outbox[o].key == m.key {
        assert Recorded(c', m.key) == Some(m.id);
      } else {
        assert AppliedRow(c, a) && c.inbox[a] == c'.inbox[a];
        assert Recorded(c', c.outbox[o].key) == Recorded(c, c.outbox[o].key);
      }
    }
  }

  lemma NextRow(q: Queue, d: Device, c: Client, id: JobId)
    requires RowsInOrder(q, d, c) && HeadsCommitted(q, c) && Parented(q.jobs) && id in c.inbox && c.inbox[id].phase.Ready?
    ensures var m := c.inbox[id].manifest; m.id == id && m.id !in Upto(q, c, m.key)
  {
    var m := c.inbox[id].manifest;
    assert m.id == id && IsCommitted(q, m) && m.parent == Recorded(c, m.key) by { hide Upto, OneRowEach; }
    hide RowsInOrder;
    UptoExtends(q, c, m, c.(files := c.files[m.key := m]));
  }

  /** The parent of an outbox version is a version the device has recorded. */
  lemma OutboxParents(q: Queue, d: Device, c: Client, k: Key)
    requires OutboxInOrder(q, d, c) && HeadsCommitted(q, c) && Parented(q.jobs)
    ensures forall o | o in c.outbox && c.outbox[o].key == k && c.outbox[o].parent.Some? :: c.outbox[o].parent.value in Upto(q, c, k)
  {
    RecordedUpto(q, c, k);
    hide Truthful, Holding, Upto, OneOutboxEach, HeadsCommitted, Parented;
  }

  lemma RecordedUpto(q: Queue, c: Client, k: Key)
    requires Parented(q.jobs) && HeadsCommitted(q, c)
    ensures Recorded(c, k).Some? ==> Recorded(c, k).value in Upto(q, c, k)
  {
    if k in c.files {
      LineageChain(q.jobs, c.files[k].id);
    }
  }

  lemma OwnStepPasses(s: System, e: Event)
    requires SystemOk(s) && Enabled(s, e) && !s.clients[e.d].chose && !e.Chooses? && ScansClear(s, e, e.d) && RowsPassOutbox(s.clients[e.d])
    ensures RowsPassOutbox(ClientAfter(s, e))
  {
    var c := s.clients[e.d];
    StrictDevice(s, e.d);
    assert Parented(s.q.jobs) by { PartsOf(s); hide SystemOk; }
    hide SystemOk, RowsInOrder, OutboxInOrder, HeadsCommitted, ReceiptsExact, BlocksKept, StagedFromOutbox, Parented, NoRowOf, Truthful, Holding, Unused;
    hide Accepted, Announced, RowsPassOutbox;
    match e {
      case Snapshots(_, m) => ScannedPasses(c, m);
      case Announces(d, id) => AnnouncedPasses(s.q, d, c, id);
      case Accepts(d, id) => AcceptedPasses(s.q, d, c, id);
      case _ => OtherwisePasses(s, e);
    }
  }

  lemma OtherwisePasses(s: System, e: Event)
    requires Enabled(s, e) && !s.clients[e.d].chose && RowsPassOutbox(s.clients[e.d])
    requires !e.Snapshots? && !e.Announces? && !e.Accepts?
    ensures RowsPassOutbox(ClientAfter(s, e))
  {
    hide Truthful, Holding, Unused, NoRowOf, IsCommitted;
    assert ClientAfter(s, e).files == s.clients[e.d].files && ClientAfter(s, e).outbox == s.clients[e.d].outbox;
    assert forall id | AppliedRow(ClientAfter(s, e), id) :: AppliedRow(s.clients[e.d], id) && ClientAfter(s, e).inbox[id] == s.clients[e.d].inbox[id];
    hide ClientAfter;
  }

  lemma StepPasses(s: System, e: Event, d: Device)
    requires SystemOk(s) && d in s.clients && !s.clients[d].chose && e != Chooses(d) && ScansClear(s, e, d) && RowsPassOutbox(s.clients[d])
    ensures d in Step(s, e).clients && RowsPassOutbox(Step(s, e).clients[d])
  {
    hide SystemOk, Enabled, ClientAfter, BrokerAfter, RowsPassOutbox, ScansClear;
    if e.d != d {
      OtherClient(s, e, d);
    } else if Enabled(s, e) {
      OwnStepPasses(s, e);
    }
  }

  lemma {:induction false} RunPasses(s: System, events: seq<Event>, d: Device)
    requires SystemOk(s) && d in s.clients && !s.clients[d].chose && RowsPassOutbox(s.clients[d])
    requires NeverChooses(events, d) && ScansAfterRows(s, events, d)
    ensures d in Run(s, events).clients && RowsPassOutbox(Run(s, events).clients[d])
    decreases |events|
  {
    hide SystemOk, Step, RowsPassOutbox;
    if events != [] {
      var t := Step(s, events[0]);
      StepPasses(s, events[0], d);
      StepOk(s, events[0]);
      UnchosenStep(s, events[0], d);
      assert forall i | 0 <= i < |events[1..]| :: events[1..][i] == events[i + 1];
      RunPasses(t, events[1..], d);
    }
  }

  /** Every recorded version of the file is acknowledged, or none of its own committed versions is unrecorded. */
  ghost predicate OneExceptionAtMost(q: Queue, d: Device, c: Client, k: Key) {
    || (forall id | id in Upto(q, c, k) :: Acknowledged(q, d, id))
    || (forall id | id in History(q, k) :: id in Upto(q, c, k) || !Acknowledged(q, d, id))
  }

  /** A device that chose nothing and scanned only datasets without inbox rows has, for each file, at most one of the two
      exceptions: a recorded version not yet acknowledged, or an acknowledged version of its own not yet recorded. */
  lemma ExceptionsExclusive(quota: nat, devices: set<Device>, events: seq<Event>, d: Device, k: Key)
    requires d in devices && NeverChooses(events, d) && ScansAfterRows(Start(quota, devices), events, d)
    ensures var s := Reach(quota, devices, events);
      d in s.clients && RecordsChain(s.q, d, s.clients[d], k) && OneExceptionAtMost(s.q, d, s.clients[d], k)
  {
    StartOk(quota, devices);
    RunPasses(Start(quota, devices), events, d);
    RecordedChain(quota, devices, events, d, k);
    ReachOk(quota, devices, events);
    UnchosenRun(Start(quota, devices), events, d);
    var s := Reach(quota, devices, events);
    hide SystemOk, Run, RecordsChain, RowsPassOutbox;
    StrictDevice(s, d);
    PartsOf(s);
    hide DeviceOk, Inv;
    ExceptionsApart(s.q, d, s.clients[d], k);
  }

  lemma RowKey(q: Queue, d: Device, c: Client, id: JobId)
    requires RowsInOrder(q, d, c) && id in c.inbox && id in q.jobs
    ensures c.inbox[id].manifest == q.jobs[id].manifest
  {
    hide Upto, OneRowEach;
  }

  lemma OutboxKey(q: Queue, d: Device, c: Client, id: JobId)
    requires OutboxInOrder(q, d, c) && id in c.outbox && id in q.jobs
    ensures c.outbox[id] == q.jobs[id].manifest
  {
    hide Upto, OneOutboxEach, Overtaken, Truthful, Holding;
  }

  lemma ExceptionsApart(q: Queue, d: Device, c: Client, k: Key)
    requires Inv(q) && DeviceOk(q, d, c) && RecordsChain(q, d, c, k) && RowsPassOutbox(c)
    ensures OneExceptionAtMost(q, d, c, k)
  {
    hide HeadsCommitted, ReceiptsExact, BlocksKept, StagedFromOutbox, RowsInOrder, OutboxInOrder, Upto, History;
    HistoryMembers(q, k);
    assert Parented(q.jobs);
    hide Inv;
    if !OneExceptionAtMost(q, d, c, k) {
      var a :| a in Upto(q, c, k) && !Acknowledged(q, d, a);
      var o :| o in History(q, k) && o !in Upto(q, c, k) && Acknowledged(q, d, o);
      assert AppliedRow(c, a) && o in c.outbox && c.outbox[o].parent == Recorded(c, k);
      UptoCommitted(q, c, k, a);
      RowKey(q, d, c, a);
      OutboxKey(q, d, c, o);
      assert false;
    }
  }
}
