/**
 A concrete run that takes a recorded head back. A publishes a version and loses power before recording it; B publishes
 the next one; A settles the file for the server's side and loses power again before its outbox forgets its own version;
 the user restores the copy, and the next session publishes the outbox first. Everything then looks settled, and pulling
 never brings the file to the head.
 */
module HeadTakenBack {
  import opened Base
  import opened BrokerState
  import opened BrokerInvariants
  import opened BrokerGuarantees
  import opened ClientState
  import opened SyncSystem
  import opened SyncGuarantees
  import opened Receiving
  import opened ConcreteRuns
  import Alignment
  import Convergence
  import SessionConvergence
  import Interference

  /** A once its version is committed, and once the user has decided and the file is copied. */
  function Unrecorded(): Client {
    Queued(Editor(), FIRST)
  }

  function Decider(): Client {
    Unrecorded().(chose := true, recovery := map[(Sha256([]), FILE.path) := []])
  }

  /** A with the row of the second version. */
  function Taker(phase: Phase): Client {
    Decider().(inbox := map[SECOND.id := Row(SECOND, phase)])
  }

  /** A once the file is gone, and once that is recorded as well. */
  function Remover(): Client {
    Taker(Ready).(tree := map[])
  }

  function Follower(): Client {
    Remover().(files := map[FILE := SECOND], inbox := map[SECOND.id := Row(SECOND, Applied)])
  }

  /** A after the second reception, after the file is restored, and after its outbox was published. */
  function Clearer(): Client {
    Follower().(inbox := map[])
  }

  function Restorer(): Client {
    Clearer().(tree := map[FILE := []])
  }

  function TakenBack(): Client {
    Restorer().(files := map[FILE := FIRST], outbox := map[])
  }

  /** The broker once A acknowledged the second version. */
  function AfterReceipt(): Queue {
    Broker(map[FIRST.id := JobOf(FIRST, 0, true), SECOND.id := JobOf(SECOND, 1, true).(state := DELIVERED, receipts := {A, B})],
           [FIRST.id, SECOND.id], map[FILE := SECOND.id])
  }

  function Rival(): Client {
    Queued(Receiver(), SECOND)
  }

  function Commitment(): seq<Event> {
    Opening() + [Edits(A, FILE, Some([]))] + Publication(A, FIRST)
  }

  function Rivalry(): seq<Event> {
    Reception() + [Accepts(B, FIRST.id)] + [Edits(B, FILE, None)] + Publication(B, SECOND)
  }

  function Decision(): seq<Event> {
    [Chooses(A), Backs(A, FILE), Journals(A, SECOND)] + [Marks(A, SECOND.id), Settles(A, SECOND.id), Accepts(A, SECOND.id)]
    + [Confirms(A, SECOND.id), Asks(A, CollectRequest), Drops(A, SECOND.id)]
  }

  /** The next session asks the broker for its outbox version, finds it committed, and records it. */
  function Republication(): seq<Event> {
    [Prepares(A, FIRST.id), Commits(A, FIRST.id), Announces(A, FIRST.id)]
  }

  function Tale(): seq<Event> {
    Commitment() + Rivalry() + Decision() + [Edits(A, FILE, Some([]))] + Republication()
  }

  // ---------------------------------------------------------------- step by step

  lemma Committing()
    ensures Reach(0, {A, B}, Commitment()) == Pair(AfterFirst(true), Unrecorded(), Fresh(B))
  {
    hide Run;
    var s := Start(0, {A, B});
    RunAppend(s, Opening() + [Edits(A, FILE, Some([]))], Publication(A, FIRST));
    RunAppend(s, Opening(), [Edits(A, FILE, Some([]))]);
    hide Opening, Publication;
    Opens();
    EditsFirst();
    PublishesFirst();
  }

  lemma Rivals()
    ensures Run(Pair(AfterFirst(true), Unrecorded(), Fresh(B)), Rivalry()) == Pair(AfterSecond(true), Unrecorded(), Rival())
  {
    hide Run;
    var s := Pair(AfterFirst(true), Unrecorded(), Fresh(B));
    RunAppend(s, Reception() + [Accepts(B, FIRST.id)] + [Edits(B, FILE, None)], Publication(B, SECOND));
    RunAppend(s, Reception() + [Accepts(B, FIRST.id)], [Edits(B, FILE, None)]);
    RunAppend(s, Reception(), [Accepts(B, FIRST.id)]);
    hide Publication, Reception;
    Receives(Unrecorded());
    AcceptsFirst(Unrecorded());
    DeletesFirst(Unrecorded());
    assert SECOND.id !in Unrecorded().outbox;
    PublishesSecond(Unrecorded());
  }

  lemma ChoosesStep()
    ensures Step(Pair(AfterSecond(true), Unrecorded(), Rival()), Chooses(A)) == Pair(AfterSecond(true), Unrecorded().(chose := true), Rival())
  {
    PairUpdates(AfterSecond(true), Unrecorded(), Rival(), Unrecorded().(chose := true));
  }

  lemma BacksStep()
    ensures Step(Pair(AfterSecond(true), Unrecorded().(chose := true), Rival()), Backs(A, FILE)) == Pair(AfterSecond(true), Decider(), Rival())
  {
    PairUpdates(AfterSecond(true), Unrecorded().(chose := true), Rival(), Decider());
    assert Backup(Unrecorded().(chose := true), FILE) == Decider();
  }

  lemma JournalsStep()
    ensures Step(Pair(AfterSecond(true), Decider(), Rival()), Journals(A, SECOND)) == Pair(AfterSecond(true), Taker(Downloading), Rival())
  {
    DeciderFacts();
    hide Decider, Rival;
    PairUpdates(AfterSecond(true), Decider(), Rival(), Taker(Downloading));
    assert Journaled(Decider(), SECOND) == Taker(Downloading);
  }

  lemma DeciderFacts()
    ensures Decider().inbox == map[] && Decider().chose
  {
  }

  lemma MarksStep()
    ensures Step(Pair(AfterSecond(true), Taker(Downloading), Rival()), Marks(A, SECOND.id)) == Pair(AfterSecond(true), Taker(Ready), Rival())
  {
    hide Decider, Rival;
    PairUpdates(AfterSecond(true), Taker(Downloading), Rival(), Taker(Ready));
    assert Marked(Taker(Downloading), SECOND.id) == Taker(Ready);
  }

  lemma SettlesStep()
    ensures Step(Pair(AfterSecond(true), Taker(Ready), Rival()), Settles(A, SECOND.id)) == Pair(AfterSecond(true), Remover(), Rival())
  {
    TakerTree();
    hide Decider, Rival;
    PairUpdates(AfterSecond(true), Taker(Ready), Rival(), Remover());
    assert Replaced(Taker(Ready), SECOND) == Remover() by { assert Taker(Ready).tree - {FILE} == map[]; }
  }

  lemma TakerTree()
    ensures Taker(Ready).tree == map[FILE := []]
  {
  }

  lemma AcceptsStep()
    ensures Step(Pair(AfterSecond(true), Remover(), Rival()), Accepts(A, SECOND.id)) == Pair(AfterSecond(true), Follower(), Rival())
  {
    RemoverFacts();
    hide Remover, Rival;
    PairUpdates(AfterSecond(true), Remover(), Rival(), Follower());
    assert Accepted(Remover(), SECOND) == Follower();
  }

  lemma RemoverFacts()
    ensures Remover().inbox == map[SECOND.id := Row(SECOND, Ready)] && Remover().files == map[] && Remover().chose
  {
  }

  lemma SecondReceipt()
    ensures Receipt(AfterSecond(true), A, SECOND.id, ManifestHash(SECOND)) == Done(AfterReceipt(), ())
  {
    assert |{A, B}| == 2 && {B} + {A} == {A, B};
    assert Stocked(map[], A, []) == map[];
    var q := AfterSecond(true);
    assert Receipted(q, A, SECOND.id).jobs == AfterReceipt().jobs;
  }

  lemma ConfirmsStep()
    ensures Step(Pair(AfterSecond(true), Follower(), Rival()), SyncSystem.Confirms(A, SECOND.id)) == Pair(AfterReceipt(), Follower(), Rival())
  {
    SecondReceipt();
    hide Receipt, Remover, Rival;
    PairUpdates(AfterSecond(true), Follower(), Rival(), Follower());
  }

  lemma CollectsStep()
    ensures Step(Pair(AfterReceipt(), Follower(), Rival()), Asks(A, CollectRequest)) == Pair(AfterReceipt(), Follower(), Rival())
  {
    PairUpdates(AfterReceipt(), Follower(), Rival(), Follower());
    assert Gc(AfterReceipt()) == AfterReceipt();
  }

  lemma DropsStep()
    ensures Step(Pair(AfterReceipt(), Follower(), Rival()), Drops(A, SECOND.id)) == Pair(AfterReceipt(), Clearer(), Rival())
  {
    hide Remover, Rival;
    PairUpdates(AfterReceipt(), Follower(), Rival(), Clearer());
    assert Dropped(Follower(), SECOND.id) == Clearer() by { assert Follower().inbox - {SECOND.id} == map[]; }
  }

  lemma Decides()
    ensures Run(Pair(AfterSecond(true), Unrecorded(), Rival()), Decision()) == Pair(AfterReceipt(), Clearer(), Rival())
  {
    hide Run, Step, AfterSecond, AfterReceipt, Unrecorded, Rival, Decider, Taker, Remover, Follower, Clearer;
    var s := Pair(AfterSecond(true), Unrecorded(), Rival());
    var first := [Chooses(A), Backs(A, FILE), Journals(A, SECOND)];
    var second := [Marks(A, SECOND.id), Settles(A, SECOND.id), Accepts(A, SECOND.id)];
    RunAppend(s, first + second, [SyncSystem.Confirms(A, SECOND.id), Asks(A, CollectRequest), Drops(A, SECOND.id)]);
    RunAppend(s, first, second);
    Three(s, Chooses(A), Backs(A, FILE), Journals(A, SECOND));
    ChoosesStep();
    BacksStep();
    JournalsStep();
    Three(Pair(AfterSecond(true), Taker(Downloading), Rival()), Marks(A, SECOND.id), Settles(A, SECOND.id), Accepts(A, SECOND.id));
    MarksStep();
    SettlesStep();
    AcceptsStep();
    Three(Pair(AfterSecond(true), Follower(), Rival()), SyncSystem.Confirms(A, SECOND.id), Asks(A, CollectRequest), Drops(A, SECOND.id));
    ConfirmsStep();
    CollectsStep();
    DropsStep();
  }

  lemma RestoresStep()
    ensures Run(Pair(AfterReceipt(), Clearer(), Rival()), [Edits(A, FILE, Some([]))]) == Pair(AfterReceipt(), Restorer(), Rival())
  {
    One(Pair(AfterReceipt(), Clearer(), Rival()), Edits(A, FILE, Some([])));
    PairUpdates(AfterReceipt(), Clearer(), Rival(), Restorer());
  }

  lemma PreparesStep()
    ensures Step(Pair(AfterReceipt(), Restorer(), Rival()), Prepares(A, FIRST.id)) == Pair(AfterReceipt(), Restorer(), Rival())
  {
    RestorerFacts();
    hide Restorer, Rival;
    PairUpdates(AfterReceipt(), Restorer(), Rival(), Restorer());
    assert After(AfterReceipt(), Prepare(AfterReceipt(), A, FIRST)) == AfterReceipt();
  }

  lemma CommitsStep()
    ensures Step(Pair(AfterReceipt(), Restorer(), Rival()), SyncSystem.Commits(A, FIRST.id)) == Pair(AfterReceipt(), Restorer(), Rival())
  {
    RestorerFacts();
    hide Restorer, Rival;
    PairUpdates(AfterReceipt(), Restorer(), Rival(), Restorer());
    assert After(AfterReceipt(), Commit(AfterReceipt(), A, FIRST.id)) == AfterReceipt();
  }

  lemma AnnouncesStep()
    ensures Step(Pair(AfterReceipt(), Restorer(), Rival()), Announces(A, FIRST.id)) == Pair(AfterReceipt(), TakenBack(), Rival())
  {
    RestorerFacts();
    hide Restorer, Rival;
    PairUpdates(AfterReceipt(), Restorer(), Rival(), TakenBack());
    assert Announced(Restorer(), FIRST) == TakenBack() by { assert Restorer().outbox - {FIRST.id} == map[]; }
  }

  lemma RestorerFacts()
    ensures Restorer().outbox == map[FIRST.id := FIRST] && Restorer().files == map[FILE := SECOND]
  {
  }

  lemma TaleEnds()
    ensures Reach(0, {A, B}, Tale()) == Pair(AfterReceipt(), TakenBack(), Rival())
  {
    var s := Start(0, {A, B});
    var e1 := Commitment() + Rivalry();
    RunAppend(s, e1 + Decision() + [Edits(A, FILE, Some([]))], Republication());
    RunAppend(s, e1 + Decision(), [Edits(A, FILE, Some([]))]);
    RunAppend(s, e1, Decision());
    RunAppend(s, Commitment(), Rivalry());
    hide Run, Step, Commitment, Rivalry, Decision, AfterReceipt, Restorer, TakenBack, Rival, AfterFirst, AfterSecond, Unrecorded, Clearer;
    Committing();
    Rivals();
    Decides();
    RestoresStep();
    Three(Pair(AfterReceipt(), Restorer(), Rival()), Prepares(A, FIRST.id), SyncSystem.Commits(A, FIRST.id), Announces(A, FIRST.id));
    PreparesStep();
    CommitsStep();
    AnnouncesStep();
  }

  // ---------------------------------------------------------------- where that leaves the device

  lemma NothingPending()
    ensures Pending(AfterReceipt(), A, GROUP) == []
  {
    var q := AfterReceipt();
    var keep := set id | id in q.jobs && Awaits(q, A, GROUP, id);
    assert keep == {};
    assert [FIRST.id, SECOND.id][..1] == [FIRST.id] && [FIRST.id][..0] == [];
    assert Select([FIRST.id], keep) == [];
  }

  lemma LooksSettled()
    ensures Convergence.Clean(TakenBack(), GROUP) && NoRowOf(TakenBack(), GROUP) && Alignment.OutboxQuiet(AfterReceipt(), TakenBack(), GROUP)
    ensures SessionConvergence.ListsRows(TakenBack().inbox, GROUP, [])
  {
  }

  lemma NothingOwed(s: System)
    requires s == Pair(AfterReceipt(), TakenBack(), Rival())
    ensures forall m | Interference.Owed(s.q, A, m) :: Convergence.AtHand(s.q, s.clients[A], m)
  {
  }

  lemma BehindHead(s: System)
    requires s == Pair(AfterReceipt(), TakenBack(), Rival())
    ensures Recorded(TakenBack(), FILE) == Some(FIRST.id) && HeadOf(s.q, FILE) == Some(SECOND.id)
    ensures !Convergence.AtHeads(s.q, s.clients[A], GROUP)
  {
    assert FILE.dataset == GROUP;
  }

  /** At the end A is bound, its files are as recorded, inbox and outbox are empty, nothing is pending, and the receiving half
      of a session does not reach the head: A is not aligned. */
  lemma TaleEndsBehind()
    ensures var s := Reach(0, {A, B}, Tale()); var policy := Policy(true, true);
      && A in s.clients && Convergence.Pullable(s, A, GROUP) && SessionConvergence.SessionReady(s, A, GROUP, policy)
      && s.clients[A].inbox == map[] && s.clients[A].outbox == map[] && Pending(s.q, A, GROUP) == []
      && !Convergence.AtHeads(s.q, s.clients[A], GROUP)
      && SessionConvergence.ListsRows(s.clients[A].inbox, GROUP, []) && !SessionConvergence.ArrivesWhole(s, A, GROUP, [], policy)
      && !Alignment.Aligned(s.q, A, s.clients[A], GROUP)
  {
    hide Run, SystemOk, Pending, Reach, Interference.Owed, Convergence.AtHand, Convergence.Clean, Convergence.AtHeads, NoRowOf;
    hide Alignment.Aligned, Alignment.OutboxQuiet, SessionConvergence.ListsRows, SessionConvergence.ArrivesWhole;
    var s := Reach(0, {A, B}, Tale());
    ReachOk(0, {A, B}, Tale());
    TaleEnds();
    LooksSettled();
    NothingOwed(s);
    NothingPending();
    BehindHead(s);
    NotAligned(s);
    SessionConvergence.SessionConvergesExactly(s, A, GROUP, [], Policy(true, true));
  }

  /** Its head carries its receipt and is not recorded. */
  lemma NotAligned(s: System)
    requires s == Pair(AfterReceipt(), TakenBack(), Rival())
    ensures !Alignment.Aligned(s.q, A, s.clients[A], GROUP)
  {
    assert Upto(s.q, TakenBack(), FILE) == [FIRST.id] by { assert Lineage(s.q.jobs, FIRST.id) == [] + [FIRST.id]; }
    assert !Alignment.AlignedAt(s.q, A, s.clients[A], SECOND.id);
  }
}
