/**
 Concrete runs. In the first a device may pull and the conditions for convergence are met. The second gives a device both
 exceptions to the recorded chain at once: a received version that is applied but not yet acknowledged, and on top of it a
 version of its own that is committed but not yet recorded; it is ready for a session, and yet one that only receives does
 not reach the head.
 */
module ConcreteRuns {
  import opened Base
  import opened BrokerState
  import opened BrokerGuarantees
  import opened ClientState
  import opened SyncSystem
  import opened SyncGuarantees
  import opened Receiving
  import Convergence
  import SessionConvergence
  import Interference
  import Alignment
  import OwnVersions

  const A := Device(0)
  const B := Device(1)
  const GROUP := Dataset(0)
  const FILE := Key(GROUP, Path(0))
  const FIRST := Manifest(JobId(1), FILE, A, None, PUT, Some(Sha256([])), 0, [])
  const SECOND := Manifest(JobId(2), FILE, B, Some(JobId(1)), DELETE, None, 0, [])

  function Bindings(): set<(Dataset, Device)> {
    {(GROUP, A), (GROUP, B)}
  }

  function JobOf(m: Manifest, number: nat, committed: bool): Job {
    Job(m, number, if committed then READY else STAGING, map[], {}, {A, B}, if committed then {m.origin} else {})
  }

  /** The broker with the given jobs and head. */
  function Broker(jobs: map<JobId, Job>, order: seq<JobId>, heads: map<Key, JobId>): Queue {
    Queue(0, {GROUP}, Bindings(), jobs, order, heads, map[], map[], map[], map[])
  }

  function Pair(q: Queue, a: Client, b: Client): System {
    System(q, map[A := a, B := b])
  }

  lemma PairUpdates(q: Queue, a: Client, b: Client, c: Client)
    ensures Pair(q, a, b).clients[A := c] == Pair(q, c, b).clients
    ensures Pair(q, a, b).clients[B := c] == Pair(q, a, c).clients
    ensures Pair(q, a, b).clients[A] == a && Pair(q, a, b).clients[B] == b
  {
    UpdateA(a, b, c);
    UpdateB(a, b, c);
  }

  lemma UpdateA(a: Client, b: Client, c: Client)
    ensures map[A := a, B := b][A := c] == map[A := c, B := b]
  {
  }

  lemma UpdateB(a: Client, b: Client, c: Client)
    ensures map[A := a, B := b][B := c] == map[A := a, B := c]
  {
  }

  lemma NothingAllocated()
    ensures SizesOf(map[]) == map[] && Allocated(map[]) == 0 && Total<Hash>(map[]) == 0
  {
  }

  /** An empty version staged by one of the two devices. */
  lemma Stages(jobs: map<JobId, Job>, order: seq<JobId>, heads: map<Key, JobId>, m: Manifest)
    requires m == FIRST || m == SECOND
    requires m.id !in jobs && HeadOf(Broker(jobs, order, heads), FILE) == m.parent
    ensures Prepare(Broker(jobs, order, heads), m.origin, m).Done?
    ensures Prepare(Broker(jobs, order, heads), m.origin, m).after
         == Broker(jobs[m.id := JobOf(m, |order|, false)], order + [m.id], heads)
  {
    var q := Broker(jobs, order, heads);
    NothingAllocated();
    assert Others(q, GROUP, A) == {B} by { assert (GROUP, B) in q.bindings; }
    assert Others(q, GROUP, B) == {A} by { assert (GROUP, A) in q.bindings; }
    assert Sizes([]) == map[];
    assert Needed(q, m.origin, m) == map[] && Absent(map[], map[]) == map[] && NewObjects(map[]) == map[];
    var job := Staged(q, m.origin, m).jobs[m.id];
    assert job.recipients == {A, B} && job.needs == {};
    assert job == JobOf(m, |order|, false);
    assert Staged(q, m.origin, m).objects == map[];
  }

  lemma CommitsStaged(jobs: map<JobId, Job>, order: seq<JobId>, heads: map<Key, JobId>, m: Manifest, n: nat)
    requires (m == FIRST || m == SECOND) && m.id in jobs && jobs[m.id] == JobOf(m, n, false)
    requires HeadOf(Broker(jobs, order, heads), FILE) == m.parent
    ensures Commit(Broker(jobs, order, heads), m.origin, m.id).Done?
    ensures Commit(Broker(jobs, order, heads), m.origin, m.id).after
         == Broker(jobs[m.id := JobOf(m, n, true)], order, heads[FILE := m.id])
  {
    var q := Broker(jobs, order, heads);
    assert Tracked(q, m.id) == {};
    assert Stocked(map[], m.origin, []) == map[];
    var p := Published(q, m.id);
    assert p.objects == map[] && p.inventory == map[];
    assert p.jobs[m.id] == JobOf(m, n, true);
  }

  // ---------------------------------------------------------------- the run

  /** B has received the first version and not yet acknowledged it. */
  function Receiver(): Client {
    Fresh(B).(files := map[FILE := FIRST], inbox := map[FIRST.id := Row(FIRST, Applied)])
  }

  function Source(): Client {
    Fresh(A).(files := map[FILE := FIRST], tree := map[FILE := []])
  }

  function AfterFirst(committed: bool): Queue {
    Broker(map[FIRST.id := JobOf(FIRST, 0, committed)], [FIRST.id], if committed then map[FILE := FIRST.id] else map[])
  }

  function AfterSecond(committed: bool): Queue {
    Broker(map[FIRST.id := JobOf(FIRST, 0, true), SECOND.id := JobOf(SECOND, 1, committed)], [FIRST.id, SECOND.id],
           map[FILE := if committed then SECOND.id else FIRST.id])
  }

  function Opening(): seq<Event> {
    [Asks(A, CreateDatasetRequest(GROUP)), Asks(A, BindRequest(GROUP)), Asks(B, BindRequest(GROUP))]
  }

  function Publication(d: Device, m: Manifest): seq<Event> {
    [Snapshots(d, m), Prepares(d, m.id), Commits(d, m.id)]
  }

  function Reception(): seq<Event> {
    [Journals(B, FIRST), Marks(B, FIRST.id), Settles(B, FIRST.id)]
  }

  /** A creates an empty file and publishes it; B receives it, loses power before the receipt, and in a run that only
      pushes publishes the deletion of the file; then the user brings the file back. */
  function Story(): seq<Event> {
    Opening() + [Edits(A, FILE, Some([]))] + Publication(A, FIRST) + [Announces(A, FIRST.id)]
    + Reception() + [Accepts(B, FIRST.id)] + [Edits(B, FILE, None)] + Publication(B, SECOND)
    + [Edits(B, FILE, Some([]))]
  }

  lemma Three(s: System, a: Event, b: Event, c: Event)
    ensures Run(s, [a, b, c]) == Step(Step(Step(s, a), b), c)
  {
    hide Step;
    assert [a, b, c][1..] == [b, c] && [b, c][1..] == [c];
    assert Run(s, [a, b, c]) == Run(Step(s, a), [b, c]);
    assert Run(Step(s, a), [b, c]) == Run(Step(Step(s, a), b), [c]);
    One(Step(Step(s, a), b), c);
  }

  lemma One(s: System, a: Event)
    ensures Run(s, [a]) == Step(s, a)
  {
    hide Step;
    assert [a][1..] == [];
  }

  lemma Opens()
    ensures Run(Start(0, {A, B}), Opening()) == Pair(Broker(map[], [], map[]), Fresh(A), Fresh(B))
  {
    var s := Start(0, {A, B});
    Three(s, Asks(A, CreateDatasetRequest(GROUP)), Asks(A, BindRequest(GROUP)), Asks(B, BindRequest(GROUP)));
    assert s.clients == map[A := Fresh(A), B := Fresh(B)];
    var q0 := Empty(0);
    var q1 := q0.(datasets := {GROUP});
    var q2 := q1.(bindings := {(GROUP, A)});
    assert CreateDataset(q0, GROUP) == Done(q1, ());
    assert Bind(q1, A, GROUP) == Done(q2, ()) by { assert q1.bindings + {(GROUP, A)} == {(GROUP, A)}; }
    assert Bind(q2, B, GROUP) == Done(Broker(map[], [], map[]), ()) by { assert q2.bindings + {(GROUP, B)} == Bindings(); }
    forall q
      ensures Pair(q, Fresh(A), Fresh(B)).clients[A := Fresh(A)] == Pair(q, Fresh(A), Fresh(B)).clients
      ensures Pair(q, Fresh(A), Fresh(B)).clients[B := Fresh(B)] == Pair(q, Fresh(A), Fresh(B)).clients
    {
      PairUpdates(q, Fresh(A), Fresh(B), Fresh(A));
      PairUpdates(q, Fresh(A), Fresh(B), Fresh(B));
    }
  }

  lemma SameClient(cs: map<Device, Client>, d: Device)
    requires d in cs
    ensures cs[d := cs[d]] == cs
  {
  }

  /** A version that is new, staged and committed in turn. */
  lemma Publishes(q: Queue, cs: map<Device, Client>, d: Device, m: Manifest, q1: Queue, q2: Queue)
    requires Enabled(System(q, cs), Snapshots(d, m))
    requires Prepare(q, d, m).Done? && Prepare(q, d, m).after == q1
    requires Commit(q1, d, m.id).Done? && Commit(q1, d, m.id).after == q2
    ensures d in cs && Run(System(q, cs), Publication(d, m)) == System(q2, cs[d := Queued(cs[d], m)])
  {
    var s := System(q, cs);
    Three(s, Snapshots(d, m), Prepares(d, m.id), Commits(d, m.id));
    assert d in cs && Step(s, Snapshots(d, m)) == System(q, cs[d := Queued(cs[d], m)]);
    hide Step, Enabled, Prepare, Commit, Run;
    var cs1 := cs[d := Queued(cs[d], m)];
    SameClient(cs1, d);
    Prepares1(q, cs1, d, m);
    Commits1(q1, cs1, d, m.id);
  }

  lemma Prepares1(q: Queue, cs: map<Device, Client>, d: Device, m: Manifest)
    requires d in cs && m.id in cs[d].outbox && cs[d].outbox[m.id] == m && Prepare(q, d, m).Done?
    ensures Step(System(q, cs), Prepares(d, m.id)) == System(Prepare(q, d, m).after, cs)
  {
    SameClient(cs, d);
    hide Prepare;
  }

  lemma Commits1(q: Queue, cs: map<Device, Client>, d: Device, id: JobId)
    requires d in cs && Commit(q, d, id).Done? && id in cs[d].outbox
    ensures Step(System(q, cs), SyncSystem.Commits(d, id)) == System(Commit(q, d, id).after, cs)
  {
    SameClient(cs, d);
    hide Commit;
  }

  /** A with the new file. */
  function Editor(): Client {
    Fresh(A).(tree := map[FILE := []])
  }

  lemma EditsFirst()
    ensures Run(Pair(Broker(map[], [], map[]), Fresh(A), Fresh(B)), [Edits(A, FILE, Some([]))])
         == Pair(Broker(map[], [], map[]), Editor(), Fresh(B))
  {
    One(Pair(Broker(map[], [], map[]), Fresh(A), Fresh(B)), Edits(A, FILE, Some([])));
    PairUpdates(Broker(map[], [], map[]), Fresh(A), Fresh(B), Editor());
  }

  lemma PublishesFirst()
    ensures Run(Pair(Broker(map[], [], map[]), Editor(), Fresh(B)), Publication(A, FIRST))
         == Pair(AfterFirst(true), Queued(Editor(), FIRST), Fresh(B))
  {
    hide Prepare, Commit, Run, Enabled;
    var s := Pair(Broker(map[], [], map[]), Editor(), Fresh(B));
    Stages(map[], [], map[], FIRST);
    CommitsStaged(map[FIRST.id := JobOf(FIRST, 0, false)], [FIRST.id], map[], FIRST, 0);
    assert [] + [FIRST.id] == [FIRST.id];
    SnapshotA(s);
    PairUpdates(s.q, Editor(), Fresh(B), Queued(Editor(), FIRST));
    Publishes(s.q, s.clients, A, FIRST, AfterFirst(false), AfterFirst(true));
  }

  lemma SnapshotA(s: System)
    requires s == Pair(Broker(map[], [], map[]), Editor(), Fresh(B))
    ensures Enabled(s, Snapshots(A, FIRST))
  {
  }

  lemma AnnouncesFirst()
    ensures Run(Pair(AfterFirst(true), Queued(Editor(), FIRST), Fresh(B)), [Announces(A, FIRST.id)])
         == Pair(AfterFirst(true), Source(), Fresh(B))
  {
    var a := Queued(Editor(), FIRST);
    One(Pair(AfterFirst(true), a, Fresh(B)), Announces(A, FIRST.id));
    assert Announced(a, FIRST) == Source() by { assert a.outbox - {FIRST.id} == map[]; }
    PairUpdates(AfterFirst(true), a, Fresh(B), Source());
  }

  /** B with the received file in place, not recorded yet. */
  function Settler(): Client {
    Fresh(B).(inbox := map[FIRST.id := Row(FIRST, Ready)], tree := map[FILE := []])
  }

  /** B with the row of the first version, marked or not. */
  function Gatherer(phase: Phase): Client {
    Fresh(B).(inbox := map[FIRST.id := Row(FIRST, phase)])
  }

  lemma JournalsFirst(a: Client)
    ensures Step(Pair(AfterFirst(true), a, Fresh(B)), Journals(B, FIRST)) == Pair(AfterFirst(true), a, Gatherer(Downloading))
  {
    PairUpdates(AfterFirst(true), a, Fresh(B), Gatherer(Downloading));
    assert Journaled(Fresh(B), FIRST) == Gatherer(Downloading);
  }

  lemma MarksFirst(a: Client)
    ensures Step(Pair(AfterFirst(true), a, Gatherer(Downloading)), Marks(B, FIRST.id)) == Pair(AfterFirst(true), a, Gatherer(Ready))
  {
    PairUpdates(AfterFirst(true), a, Gatherer(Downloading), Gatherer(Ready));
    assert Marked(Gatherer(Downloading), FIRST.id) == Gatherer(Ready);
  }

  lemma SettlesFirst(a: Client)
    ensures Step(Pair(AfterFirst(true), a, Gatherer(Ready)), Settles(B, FIRST.id)) == Pair(AfterFirst(true), a, Settler())
  {
    PairUpdates(AfterFirst(true), a, Gatherer(Ready), Settler());
    assert Replaced(Gatherer(Ready), FIRST) == Settler();
  }

  lemma Receives(a: Client)
    ensures Run(Pair(AfterFirst(true), a, Fresh(B)), Reception()) == Pair(AfterFirst(true), a, Settler())
  {
    hide Step, Run;
    Three(Pair(AfterFirst(true), a, Fresh(B)), Journals(B, FIRST), Marks(B, FIRST.id), Settles(B, FIRST.id));
    JournalsFirst(a);
    MarksFirst(a);
    SettlesFirst(a);
  }

  lemma AcceptsFirst(a: Client)
    ensures Run(Pair(AfterFirst(true), a, Settler()), [Accepts(B, FIRST.id)])
         == Pair(AfterFirst(true), a, Accepted(Settler(), FIRST))
  {
    One(Pair(AfterFirst(true), a, Settler()), Accepts(B, FIRST.id));
    PairUpdates(AfterFirst(true), a, Settler(), Accepted(Settler(), FIRST));
  }

  lemma DeletesFirst(a: Client)
    ensures Run(Pair(AfterFirst(true), a, Accepted(Settler(), FIRST)), [Edits(B, FILE, None)])
         == Pair(AfterFirst(true), a, Receiver())
  {
    var b := Accepted(Settler(), FIRST);
    One(Pair(AfterFirst(true), a, b), Edits(B, FILE, None));
    assert Edited(b, FILE, None) == Receiver() by { assert b.tree - {FILE} == map[]; }
    PairUpdates(AfterFirst(true), a, b, Receiver());
  }

  lemma SnapshotB(s: System, a: Client)
    requires s == Pair(AfterFirst(true), a, Receiver()) && SECOND.id !in a.outbox
    ensures Enabled(s, Snapshots(B, SECOND))
  {
  }

  lemma StagesSecond()
    ensures Prepare(AfterFirst(true), B, SECOND).Done? && Prepare(AfterFirst(true), B, SECOND).after == AfterSecond(false)
  {
    hide Prepare;
    var jobs := map[FIRST.id := JobOf(FIRST, 0, true)];
    Stages(jobs, [FIRST.id], map[FILE := FIRST.id], SECOND);
    assert jobs[SECOND.id := JobOf(SECOND, 1, false)] == AfterSecond(false).jobs;
    assert [FIRST.id] + [SECOND.id] == [FIRST.id, SECOND.id];
  }

  lemma CommitsSecond()
    ensures Commit(AfterSecond(false), B, SECOND.id).Done? && Commit(AfterSecond(false), B, SECOND.id).after == AfterSecond(true)
  {
    hide Commit;
    CommitsStaged(AfterSecond(false).jobs, [FIRST.id, SECOND.id], map[FILE := FIRST.id], SECOND, 1);
    assert AfterSecond(false).jobs[SECOND.id := JobOf(SECOND, 1, true)] == AfterSecond(true).jobs;
  }

  lemma PublishesSecond(a: Client)
    requires SECOND.id !in a.outbox
    ensures Run(Pair(AfterFirst(true), a, Receiver()), Publication(B, SECOND)) == Pair(AfterSecond(true), a, Queued(Receiver(), SECOND))
  {
    hide Prepare, Commit, Run, Enabled, AfterFirst, AfterSecond, Receiver, Queued;
    var s := Pair(AfterFirst(true), a, Receiver());
    StagesSecond();
    CommitsSecond();
    SnapshotB(s, a);
    PairUpdates(s.q, a, Receiver(), Queued(Receiver(), SECOND));
    Publishes(s.q, s.clients, B, SECOND, AfterSecond(false), AfterSecond(true));
  }

  /** The part of the story up to the moment the first version is published. */
  function Beginning(): seq<Event> {
    Opening() + [Edits(A, FILE, Some([]))] + Publication(A, FIRST) + [Announces(A, FIRST.id)]
  }

  lemma Begins()
    ensures Reach(0, {A, B}, Beginning()) == Pair(AfterFirst(true), Source(), Fresh(B))
  {
    hide Run;
    var s := Start(0, {A, B});
    var e1 := Opening() + [Edits(A, FILE, Some([]))];
    RunAppend(s, e1 + Publication(A, FIRST), [Announces(A, FIRST.id)]);
    RunAppend(s, e1, Publication(A, FIRST));
    RunAppend(s, Opening(), [Edits(A, FILE, Some([]))]);
    hide Opening, Publication;
    Opens();
    EditsFirst();
    PublishesFirst();
    AnnouncesFirst();
  }

  /** The conditions for convergence are met in a reachable state with something to pull: B's first session. */
  lemma FirstPull()
    ensures var s := Reach(0, {A, B}, Beginning());
      && SessionConvergence.SessionReady(s, B, GROUP, Policy(true, true)) && Convergence.Pullable(s, B, GROUP)
      && Alignment.Aligned(s.q, B, s.clients[B], GROUP) && Pending(s.q, B, GROUP) == [FIRST.id]
  {
    var s := Reach(0, {A, B}, Beginning());
    ReachOk(0, {A, B}, Beginning());
    Begins();
    hide Reach, Run, SystemOk, Pending, Interference.Owed, Convergence.AtHand, Convergence.Clean, Alignment.OutboxQuiet, Alignment.Aligned;
    FreshClean();
    OwnVersions.UnchosenQuiet(s, B, GROUP);
    OwedFirst(s);
    FirstPending(s.q);
  }

  lemma FreshClean()
    ensures Convergence.Clean(Fresh(B), GROUP) && Alignment.OutboxQuiet(AfterFirst(true), Fresh(B), GROUP)
  {
  }

  lemma OwedFirst(s: System)
    requires s == Pair(AfterFirst(true), Source(), Fresh(B))
    ensures forall m | Interference.Owed(s.q, B, m) :: Convergence.AtHand(s.q, s.clients[B], m)
  {
  }

  lemma FirstPending(q: Queue)
    requires q == AfterFirst(true)
    ensures Pending(q, B, GROUP) == [FIRST.id]
  {
    var keep := set id | id in q.jobs && Awaits(q, B, GROUP, id);
    assert FIRST.id in keep;
    assert [FIRST.id][..0] == [];
    assert Select([FIRST.id], keep) == [] + [FIRST.id];
  }

  /** B at the end: FIRST applied and in place, SECOND committed and still in the outbox. */
  function Behind(): Client {
    Queued(Receiver(), SECOND).(tree := map[FILE := []])
  }

  lemma RestoresFirst()
    ensures Run(Pair(AfterSecond(true), Source(), Queued(Receiver(), SECOND)), [Edits(B, FILE, Some([]))])
         == Pair(AfterSecond(true), Source(), Behind())
  {
    var b := Queued(Receiver(), SECOND);
    One(Pair(AfterSecond(true), Source(), b), Edits(B, FILE, Some([])));
    PairUpdates(AfterSecond(true), Source(), b, Behind());
  }

  lemma Ends()
    ensures Reach(0, {A, B}, Story()) == Pair(AfterSecond(true), Source(), Behind())
  {
    hide Run;
    var s := Start(0, {A, B});
    var e1 := Opening() + [Edits(A, FILE, Some([]))];
    var e2 := e1 + Publication(A, FIRST) + [Announces(A, FIRST.id)];
    var e3 := e2 + Reception() + [Accepts(B, FIRST.id)];
    var e4 := e3 + [Edits(B, FILE, None)] + Publication(B, SECOND);
    RunAppend(s, e4, [Edits(B, FILE, Some([]))]);
    RunAppend(s, e3 + [Edits(B, FILE, None)], Publication(B, SECOND));
    RunAppend(s, e3, [Edits(B, FILE, None)]);
    RunAppend(s, e2 + Reception(), [Accepts(B, FIRST.id)]);
    RunAppend(s, e2, Reception());
    RunAppend(s, e1 + Publication(A, FIRST), [Announces(A, FIRST.id)]);
    RunAppend(s, e1, Publication(A, FIRST));
    RunAppend(s, Opening(), [Edits(A, FILE, Some([]))]);
    hide Opening, Publication, Reception;
    Opens();
    EditsFirst();
    PublishesFirst();
    AnnouncesFirst();
    Receives(Source());
    AcceptsFirst(Source());
    DeletesFirst(Source());
    PublishesSecond(Source());
    RestoresFirst();
  }

  lemma BehindClean()
    ensures Convergence.Clean(Behind(), GROUP) && SessionConvergence.ListsRows(Behind().inbox, GROUP, [FIRST.id])
    ensures !Alignment.OutboxQuiet(AfterSecond(true), Behind(), GROUP)
  {
    assert SECOND.id in Behind().outbox && SECOND.id in AfterSecond(true).jobs;
  }

  lemma OwedBehind(s: System)
    requires s == Pair(AfterSecond(true), Source(), Behind())
    ensures forall m | Interference.Owed(s.q, B, m) :: Convergence.AtHand(s.q, s.clients[B], m)
  {
  }

  /** At the end of the story every other condition of convergence holds for B, and the receiving half of its session
      does not reach the heads: its own unrecorded version stands in the way until the outbox is published again. */
  lemma StoryStalls()
    ensures var s := Reach(0, {A, B}, Story()); var policy := Policy(true, true);
      && SessionConvergence.SessionReady(s, B, GROUP, policy)
      && SessionConvergence.ListsRows(s.clients[B].inbox, GROUP, [FIRST.id])
      && !Alignment.OutboxQuiet(s.q, s.clients[B], GROUP)
      && !SessionConvergence.ArrivesWhole(s, B, GROUP, [FIRST.id], policy)
  {
    var s := Reach(0, {A, B}, Story());
    hide Reach, Run, SystemOk, Interference.Owed, Convergence.AtHand, Convergence.Clean, Alignment.OutboxQuiet;
    hide SessionConvergence.ListsRows, SessionConvergence.ArrivesWhole;
    ReachOk(0, {A, B}, Story());
    Ends();
    BehindClean();
    OwedBehind(s);
    OwnVersions.UnchosenSession(s, B, GROUP, [FIRST.id], Policy(true, true));
  }

  /** Both exceptions hold for one device, one dataset, even one file. */
  lemma ExceptionsCoexist()
    ensures var s := Reach(0, {A, B}, Story());
      && B in s.clients && AppliedRow(s.clients[B], FIRST.id) && !Acknowledged(s.q, B, FIRST.id)
      && SECOND.id in s.clients[B].outbox && IsCommitted(s.q, SECOND) && Acknowledged(s.q, B, SECOND.id)
      && Recorded(s.clients[B], FILE) == Some(FIRST.id)
  {
    hide Reach;
    Ends();
  }
}
