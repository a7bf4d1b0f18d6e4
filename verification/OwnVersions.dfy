/**
 What versions of its own in the outbox mean for a device's convergence: one that is committed but not recorded keeps it
 from the head, and publishing the outbox first either brings it on or takes the recorded head back.
 */
module OwnVersions {
  import opened Base
  import opened BrokerState
  import opened BrokerInvariants
  import opened BrokerGuarantees
  import opened ClientState
  import opened Receiving
  import opened SyncSystem
  import opened SyncInvariants
  import opened SyncGuarantees
  import opened Interference
  import opened Alignment
  import opened Convergence
  import opened SessionConvergence

  // ---------------------------------------------------------------- where an unrecorded commit keeps a device

  /** A version of its own that was committed but not recorded keeps a device from its head: the file is not at the
      head now, and while the version is the next one, no version owed to the device can be received for the file. */
  lemma UnrecordedCommitStalls(s: System, d: Device, id: JobId)
    requires SystemOk(s) && d in s.clients && id in s.clients[d].outbox && id in s.q.jobs && s.q.jobs[id].Committed()
    requires id !in Upto(s.q, s.clients[d], s.clients[d].outbox[id].key)
    ensures var c := s.clients[d]; var o := c.outbox[id];
      && !AtHeads(s.q, c, o.key.dataset)
      && (o.parent == Recorded(c, o.key) ==> forall m | Owed(s.q, d, m) && m.key == o.key :: !Acceptable(c, m, NoChoice))
  {
    var c := s.clients[d];
    var o := c.outbox[id];
    OwnCommitted(s, d, id);
    assert Headed(s.q.jobs, s.q.heads) && OnlyChildren(s.q.jobs) && ReceiptsBacked(s.q.jobs, s.q.inventory) by { PartsOf(s); hide SystemOk; }
    hide SystemOk, OnlyChildren;
    assert d in s.q.jobs[id].receipts;
    hide ReceiptsBacked, Already;
    HeadBeyond(s.q, c, o);
    forall m | Owed(s.q, d, m) && m.key == o.key && o.parent == Recorded(c, o.key)
      ensures !Acceptable(c, m, NoChoice)
    {
      if m.parent == o.parent {
        SoleChild(s.q, m.id, o);
        assert false;
      }
    }
  }

  lemma OwnCommitted(s: System, d: Device, id: JobId)
    requires SystemOk(s) && d in s.clients && id in s.clients[d].outbox && id in s.q.jobs && s.q.jobs[id].Committed()
    ensures var o := s.clients[d].outbox[id]; IsCommitted(s.q, o) && o.origin == d && o.id == id
  {
    DeviceOf(s, d);
    hide SystemOk, DeviceInv, HeadsCommitted, RowsKnown, BlocksKept, Truthful, Holding;
  }

  lemma HeadBeyond(q: Queue, c: Client, o: Manifest)
    requires Headed(q.jobs, q.heads) && IsCommitted(q, o) && o.id !in Upto(q, c, o.key)
    ensures !AtHeads(q, c, o.key.dataset)
  {
    hide Lineage;
    assert Recorded(c, o.key) != HeadOf(q, o.key);
  }

  /** For a device that made no explicit choice such a version is not recorded and is the next one after the recorded head. */
  lemma UnrecordedOnHead(s: System, d: Device, id: JobId)
    requires SystemOk(s) && d in s.clients && !s.clients[d].chose && id in s.clients[d].outbox && id in s.q.jobs && s.q.jobs[id].Committed()
    ensures var c := s.clients[d]; var o := c.outbox[id];
      o.parent == Recorded(c, o.key) && id !in Upto(s.q, c, o.key)
  {
    StrictDevice(s, d);
    OwnCommitted(s, d, id);
    ParentedHeads(s, d);
    var c := s.clients[d];
    var o := c.outbox[id];
    hide SystemOk, HeadsCommitted, ReceiptsExact, RowsInOrder, BlocksKept, StagedFromOutbox, Truthful, Holding, Upto, OneOutboxEach, Parented;
    assert o.parent == Recorded(c, o.key);
    UptoExtends(s.q, c, o, c.(files := c.files[o.key := o]));
  }

  // ---------------------------------------------------------------- without explicit choices

  /** For a device that made no explicit choice a pull goes through and ends at the heads if and only if nothing of its own
      was committed without being recorded. */
  lemma UnchosenPull(s: System, d: Device, ds: Dataset, others: seq<seq<Event>>, policy: Policy)
    requires Pullable(s, d, ds) && !s.clients[d].chose && policy.deletes && policy.recycle
    requires forall i | 0 <= i < |Pending(s.q, d, ds)| :: Pending(s.q, d, ds)[i] in s.q.jobs
    requires forall m | m in Answered(s.q, Pending(s.q, d, ds)) :: AtHand(s.q, s.clients[d], m)
    requires |others| == |Pending(s.q, d, ds)| && forall i | 0 <= i < |others| :: ByOthers(others[i], d)
    ensures var ms := Answered(s.q, Pending(s.q, d, ds)); var e := ReceiveAll(s, d, ms, others);
      (AllSucceed(s, d, ms, others, policy) && d in e.clients && AtHeads(s.q, e.clients[d], ds)) <==> OutboxQuiet(s.q, s.clients[d], ds)
  {
    hide SystemOk, Clean, NoRowOf, Aligned, OutboxQuiet, ByOthers, AllSucceed, ReceiveAll, AtHeads, AtHand, Pending;
    UnchosenQuiet(s, d, ds);
    PullConvergesExactly(s, d, ds, others, policy);
  }

  lemma UnchosenQuiet(s: System, d: Device, ds: Dataset)
    requires SystemOk(s) && d in s.clients && !s.clients[d].chose
    ensures Aligned(s.q, d, s.clients[d], ds) <==> OutboxQuiet(s.q, s.clients[d], ds)
  {
    hide SystemOk, Inv, Honest, FilesTracked, DeviceOk, Aligned, OutboxQuiet;
    StrictDevice(s, d);
    PartsOf(s);
    UnchosenAligned(s.q, d, s.clients[d], ds);
  }

  /** The same for the receiving half of a session: the one row it may find is always in its turn. */
  lemma UnchosenSession(s: System, d: Device, ds: Dataset, ids: seq<JobId>, policy: Policy)
    requires SessionReady(s, d, ds, policy) && !s.clients[d].chose && ListsRows(s.clients[d].inbox, ds, ids)
    ensures ArrivesWhole(s, d, ds, ids, policy) <==> OutboxQuiet(s.q, s.clients[d], ds)
  {
    hide SystemOk, Clean, Owed, AtHand, Aligned, OutboxQuiet, ArrivesWhole, InTurn;
    UnchosenQuiet(s, d, ds);
    SessionConvergesExactly(s, d, ds, ids, policy);
    StrictDevice(s, d);
    hide DeviceOk;
    UnchosenTurn(s.q, d, s.clients[d], ds, ids);
  }

  lemma UnchosenTurn(q: Queue, d: Device, c: Client, ds: Dataset, ids: seq<JobId>)
    requires DeviceOk(q, d, c) && ListsRows(c.inbox, ds, ids)
    ensures InTurn(c.inbox, c.files, RowManifests(c.inbox, ids))
  {
    hide HeadsCommitted, ReceiptsExact, OutboxInOrder, BlocksKept, StagedFromOutbox, Upto;
    var ms := RowManifests(c.inbox, ids);
    FewRows(c, ds, ids);
    if |ids| == 1 {
      var m := c.inbox[ids[0]].manifest;
      assert ms == [m] && ms[1..] == [];
      assert c.inbox[ids[0]].phase.Applied? || m.parent == Recorded(c, m.key);
    }
  }

  lemma FewRows(c: Client, ds: Dataset, ids: seq<JobId>)
    requires OneRowEach(c) && ListsRows(c.inbox, ds, ids)
    ensures |ids| <= 1
  {
    if |ids| > 1 {
      SameRow(c, ds, ids[0], ids[1]);
      assert false;
    }
  }

  lemma SameRow(c: Client, ds: Dataset, a: JobId, b: JobId)
    requires OneRowEach(c) && a in c.inbox && b in c.inbox
    requires c.inbox[a].manifest.key.dataset == ds && c.inbox[b].manifest.key.dataset == ds
    ensures a == b
  {
  }

  // ---------------------------------------------------------------- what publishing first does

  /** The working files are the recorded versions, but one holds the device's own version. */
  ghost predicate CleanBut(c: Client, ds: Dataset, o: Manifest) {
    forall k: Key | k.dataset == ds :: Local(c, k) == if k == o.key then o.sha else RecordedSha(c, k)
  }

  /** Agreement with the receipts if a version were the recorded head of its file: they end with it. */
  ghost predicate AlignedUpTo(q: Queue, d: Device, c: Client, ds: Dataset, o: Manifest)
    requires o.id in q.jobs
  {
    forall id | id in q.jobs && q.jobs[id].Committed() && q.jobs[id].manifest.key.dataset == ds ::
      if q.jobs[id].manifest.key != o.key then AlignedAt(q, d, c, id)
      else
        var upTo := q.jobs[id].number <= q.jobs[o.id].number;
        if id in c.inbox then c.inbox[id].phase.Applied? ==> upTo else d in q.jobs[id].receipts <==> upTo
  }

  /** A session that does not only pull publishes its outbox first. For a version committed before, with the file as it was
      published, that leaves the device ready to receive; and aligned exactly when its receipts for the file end there. */
  lemma PublishFirst(s: System, d: Device, ds: Dataset, id: JobId, policy: Policy)
    requires SystemOk(s) && d in s.clients && (ds, d) in s.q.bindings && policy.deletes && policy.recycle
    requires id in s.clients[d].outbox && s.clients[d].outbox[id].key.dataset == ds && id in s.q.jobs && s.q.jobs[id].Committed()
    requires CleanBut(s.clients[d], ds, s.clients[d].outbox[id])
    requires forall m | Owed(s.q, d, m) && m.key.dataset == ds :: AtHand(s.q, s.clients[d], m)
    ensures var c := s.clients[d]; var o := c.outbox[id]; var t := Step(s, Announces(d, id));
      && Enabled(s, Announces(d, id)) && SessionReady(t, d, ds, policy) && o.id in s.q.jobs
      && (Aligned(t.q, d, t.clients[d], ds) <==> AlignedUpTo(s.q, d, c, ds, o))
  {
    hide SystemOk, Inv, Honest, FilesTracked, Owed, AtHand, IsCommitted, Enabled, Step, Clean, CleanBut, Aligned, AlignedUpTo, Parented, Headed;
    var c, a := s.clients[d], Announced(s.clients[d], s.clients[d].outbox[id]);
    StepOk(s, Announces(d, id));
    OwnCommitted(s, d, id);
    AnnouncesStep(s, d, id);
    AnnouncedClean(c, ds, id);
    ChainOfSystem(s);
    AnnouncedAligned(s.q, d, c, ds, id);
    assert a.cache == c.cache;
    hide Announced;
    forall m | Owed(s.q, d, m) && m.key.dataset == ds
      ensures AtHand(s.q, a, m)
    {
      SameHand(s.q, c, a, m);
    }
  }

  lemma ChainOfSystem(s: System)
    requires SystemOk(s)
    ensures Parented(s.q.jobs) && Headed(s.q.jobs, s.q.heads)
  {
    PartsOf(s);
    hide SystemOk, Parented, Headed;
  }

  lemma SameHand(q: Queue, c: Client, a: Client, m: Manifest)
    requires AtHand(q, c, m) && a.cache == c.cache
    ensures AtHand(q, a, m)
  {
    hide Hashes;
  }

  lemma AnnouncesStep(s: System, d: Device, id: JobId)
    requires d in s.clients && id in s.clients[d].outbox && IsCommitted(s.q, s.clients[d].outbox[id])
    ensures Enabled(s, Announces(d, id))
    ensures Step(s, Announces(d, id)) == System(s.q, s.clients[d := Announced(s.clients[d], s.clients[d].outbox[id])])
  {
    hide IsCommitted, Announced;
  }

  lemma AnnouncedClean(c: Client, ds: Dataset, id: JobId)
    requires id in c.outbox && CleanBut(c, ds, c.outbox[id])
    ensures Clean(Announced(c, c.outbox[id]), ds)
  {
  }

  lemma AnnouncedAligned(q: Queue, d: Device, c: Client, ds: Dataset, id: JobId)
    requires Parented(q.jobs) && Headed(q.jobs, q.heads) && id in c.outbox && IsCommitted(q, c.outbox[id])
    ensures var o := c.outbox[id]; Aligned(q, d, Announced(c, o), ds) <==> AlignedUpTo(q, d, c, ds, o)
  {
    hide Parented, Headed, Lineage;
    var o := c.outbox[id];
    var a := Announced(c, o);
    forall b | b in q.jobs && q.jobs[b].Committed() && q.jobs[b].manifest.key == o.key
      ensures b in Upto(q, a, o.key) <==> q.jobs[b].number <= q.jobs[o.id].number
    {
      LineageByNumber(q, o.id, b);
    }
    assert forall k | k != o.key :: Upto(q, a, k) == Upto(q, c, k);
    hide Upto;
  }

  /** The committed versions up to one of a file are those with no larger number. */
  lemma LineageByNumber(q: Queue, o: JobId, id: JobId)
    requires Parented(q.jobs) && Headed(q.jobs, q.heads)
    requires o in q.jobs && q.jobs[o].Committed() && id in q.jobs && q.jobs[id].Committed() && q.jobs[id].manifest.key == q.jobs[o].manifest.key
    ensures id in Lineage(q.jobs, o) <==> q.jobs[id].number <= q.jobs[o].number
  {
    var h := q.heads[q.jobs[o].manifest.key];
    LineagePrefix(q.jobs, h, o);
    LineagePrefix(q.jobs, h, id);
    LineageChain(q.jobs, o);
    LineageChain(q.jobs, id);
    var a, b := Lineage(q.jobs, o), Lineage(q.jobs, id);
    hide Lineage, Headed;
    if |b| <= |a| {
      assert a[|b| - 1] == b[|b| - 1];
      LineageMembers(q.jobs, o, id);
    } else {
      assert b[|a| - 1] == a[|a| - 1];
      LineageMembers(q.jobs, id, o);
      if id in a { LineageMembers(q.jobs, o, id); }
    }
  }

  /** A device that made no explicit choice is brought on: it then converges. */
  lemma PublishFirstConverges(s: System, d: Device, ds: Dataset, id: JobId, policy: Policy)
    requires SystemOk(s) && d in s.clients && !s.clients[d].chose && (ds, d) in s.q.bindings && policy.deletes && policy.recycle
    requires id in s.clients[d].outbox && s.clients[d].outbox[id].key.dataset == ds && id in s.q.jobs && s.q.jobs[id].Committed()
    requires CleanBut(s.clients[d], ds, s.clients[d].outbox[id])
    requires forall m | Owed(s.q, d, m) && m.key.dataset == ds :: AtHand(s.q, s.clients[d], m)
    ensures var t := Step(s, Announces(d, id));
      Enabled(s, Announces(d, id)) && SessionReady(t, d, ds, policy) && Aligned(t.q, d, t.clients[d], ds)
  {
    PublishFirst(s, d, ds, id, policy);
    OneOutbox(s, d);
    OwnCommitted(s, d, id);
    AnnouncesStep(s, d, id);
    var c, t := s.clients[d], Step(s, Announces(d, id));
    hide SystemOk, Owed, AtHand, Clean, CleanBut, OneOutboxEach, OutboxQuiet, Aligned, AlignedUpTo, IsCommitted, Enabled, Step;
    AnnouncedQuiet(s.q, c, ds, id);
    assert !Announced(c, c.outbox[id]).chose;
    UnchosenQuiet(t, d, ds);
  }

  lemma OneOutbox(s: System, d: Device)
    requires SystemOk(s) && d in s.clients && !s.clients[d].chose
    ensures OneOutboxEach(s.clients[d])
  {
    StrictDevice(s, d);
    hide SystemOk, OneOutboxEach, HeadsCommitted, ReceiptsExact, RowsInOrder, BlocksKept, StagedFromOutbox, Truthful, Holding, Upto;
  }

  lemma AnnouncedQuiet(q: Queue, c: Client, ds: Dataset, id: JobId)
    requires id in c.outbox && c.outbox[id].id == id && c.outbox[id].key.dataset == ds && OneOutboxEach(c)
    ensures OutboxQuiet(q, Announced(c, c.outbox[id]), ds)
  {
  }

  /** A device that has recorded a later version of the file is taken back, and no longer aligned. */
  lemma PublishTakesBack(s: System, d: Device, ds: Dataset, id: JobId)
    requires SystemOk(s) && d in s.clients && id in s.clients[d].outbox && s.clients[d].outbox[id].key.dataset == ds
    requires id in s.q.jobs && s.q.jobs[id].Committed() && Aligned(s.q, d, s.clients[d], ds)
    requires var c := s.clients[d]; var k := c.outbox[id].key;
      k in c.files && c.files[k].id !in c.inbox && c.files[k].id != id && id in Upto(s.q, c, k)
    ensures var t := Step(s, Announces(d, id)); d in t.clients && !Aligned(t.q, d, t.clients[d], ds)
  {
    hide SystemOk, Enabled, Step, Lineage, Parented, Headed, HeadsCommitted, Aligned, AlignedUpTo, IsCommitted;
    OwnCommitted(s, d, id);
    AnnouncesStep(s, d, id);
    ChainOfSystem(s);
    ParentedHeads(s, d);
    AnnouncedAligned(s.q, d, s.clients[d], ds, id);
    RecordedBeyond(s.q, d, s.clients[d], ds, s.clients[d].outbox[id]);
  }

  lemma RecordedBeyond(q: Queue, d: Device, c: Client, ds: Dataset, o: Manifest)
    requires Parented(q.jobs) && HeadsCommitted(q, c) && o.id in q.jobs && o.key.dataset == ds && Aligned(q, d, c, ds)
    requires o.key in c.files && c.files[o.key].id !in c.inbox && c.files[o.key].id != o.id && o.id in Upto(q, c, o.key)
    ensures !AlignedUpTo(q, d, c, ds, o)
  {
    var h := c.files[o.key].id;
    LineageMembers(q.jobs, h, o.id);
    LineageChain(q.jobs, h);
    hide Lineage, Parented;
    assert h in Upto(q, c, o.key) && AlignedAt(q, d, c, h);
  }
}
