/** Publications and repairs, whole or cut off anywhere between two packets, are runs of steps of the system. */
module PublicationRun {
  import opened Base
  import opened BrokerState
  import opened BrokerInvariants
  import opened BrokerGuarantees
  import opened ClientState
  import opened Publishing
  import opened SyncSystem
  import opened SyncInvariants
  import opened SyncGuarantees
  import opened Resuming

  /** Steps of one device lead from a state to another. */
  ghost predicate Reaches(s: System, d: Device, t: System) {
    exists events: seq<Event> :: (forall i | 0 <= i < |events| :: events[i].d == d) && Run(s, events) == t
  }

  lemma ReachesSelf(s: System, d: Device)
    ensures Reaches(s, d, s)
  {
    assert Run(s, []) == s;
  }

  lemma ReachesStep(s: System, d: Device, e: Event)
    requires e.d == d
    ensures Reaches(s, d, Step(s, e))
  {
    hide Step;
    var events := [e];
    assert Run(s, events) == Run(Step(s, e), events[1..]);
  }

  lemma ReachesThen(s: System, d: Device, t: System, u: System)
    requires Reaches(s, d, t) && Reaches(t, d, u)
    ensures Reaches(s, d, u)
  {
    hide Run;
    var a: seq<Event> :| (forall i | 0 <= i < |a| :: a[i].d == d) && Run(s, a) == t;
    var b: seq<Event> :| (forall i | 0 <= i < |b| :: b[i].d == d) && Run(t, b) == u;
    RunAppend(s, a, b);
    assert forall i | 0 <= i < |a + b| :: (a + b)[i].d == d;
  }

  lemma ReachesOk(s: System, d: Device, t: System)
    requires SystemOk(s) && Reaches(s, d, t)
    ensures SystemOk(t)
  {
    hide SystemOk, Run;
    var events: seq<Event> :| (forall i | 0 <= i < |events| :: events[i].d == d) && Run(s, events) == t;
    RunOk(s, events);
  }

  // ---------------------------------------------------------------- packets

  /** A block that the device may upload for a version of its own. */
  ghost predicate Uploads(s: System, d: Device, id: JobId, h: Hash) {
    && SystemOk(s) && d in s.clients && h in s.clients[d].cache
    && id in s.q.jobs && s.q.jobs[id].manifest.origin == d && s.q.jobs[id].state != DELIVERED
    && h in s.q.jobs[id].needs && h in s.q.objects
  }

  function With(s: System, q: Queue): System {
    System(q, s.clients)
  }

  /** How far a block is. */
  lemma PartFacts(s: System, h: Hash)
    requires SystemOk(s) && h in s.q.objects
    ensures var q := s.q; q.objects[h].size == |h.preimage| && Part(q, h) <= h.preimage && |Part(q, h)| < |h.preimage|
    ensures h in s.q.chunks ==> Filled(s.q, {h}) == s.q
  {
    PartsOf(s);
    hide SystemOk, Inv;
    if h in s.q.chunks { WholeFilled(s.q, h); }
  }

  lemma WholeFilled(q: Queue, h: Hash)
    requires FilesTracked(q.objects, q.chunks, q.uploads) && h in q.chunks && q.objects[h].size == |h.preimage|
    ensures Filled(q, {h}) == q
  {
    assert q.chunks[h] == h.preimage && q.objects[h] == Object(|h.preimage|, true, |h.preimage|) && h !in q.uploads;
    hide FilesTracked;
    assert Filled(q, {h}).chunks == q.chunks && Filled(q, {h}).uploads == q.uploads && Filled(q, {h}).objects == q.objects;
  }

  lemma PutAppends(q: Queue, d: Device, id: JobId, h: Hash, payload: Bytes)
    requires id in q.jobs && q.jobs[id].manifest.origin == d && q.jobs[id].state != DELIVERED && h in q.jobs[id].needs
    requires h in q.objects && h !in q.chunks && q.objects[h].size == |h.preimage|
    requires payload != [] && |payload| <= PACKET && |Part(q, h)| + |payload| <= |h.preimage|
    ensures After(q, Upload(q, d, id, h, Some(|Part(q, h)|), payload)) == Appended(q, h, payload).0
  {
    hide Part, Appended;
  }

  lemma PacketReaches(s: System, d: Device, id: JobId, h: Hash, n: nat)
    requires Uploads(s, d, id, h) && h !in s.q.chunks && 0 < n <= PACKET && |Part(s.q, h)| + n <= |h.preimage|
    ensures var b := |Part(s.q, h)| + n;
      Reaches(s, d, With(s, if b == |h.preimage| then Filled(s.q, {h}) else Partly(s.q, h, b)))
  {
    hide SystemOk, Reaches, Filled, Partly, Appended, Upload, Step, Handle;
    var a := |Part(s.q, h)|;
    PartFacts(s, h);
    SliceIs(h, a, n);
    var e := Puts(d, id, h, a, n);
    PutsIs(s, d, id, h, a, n);
    PutAppends(s.q, d, id, h, Slice(h, a, n));
    SliceAppended(s.q, h, Slice(h, a, n));
    ReachesStep(s, d, e);
    assert s.clients[d := s.clients[d]] == s.clients;
  }

  lemma PartlyPart(q: Queue, h: Hash, b: nat, c: nat)
    requires b <= |h.preimage| && c <= |h.preimage|
    ensures |Part(Partly(q, h, b), h)| == b && Partly(Partly(q, h, b), h, c) == Partly(q, h, c)
    ensures Partly(q, h, b).jobs == q.jobs && Partly(q, h, b).chunks == q.chunks && h in Partly(q, h, b).objects
    ensures Filled(Partly(q, h, b), {h}) == Filled(q, {h})
  {
    hide Filled, Partly, Part;
    FilledNone(q);
    FilledOver(q, {}, h, b, {h});
    PartlyTwice(q, h, b, c);
  }

  lemma PartlyTwice(q: Queue, h: Hash, b: nat, c: nat)
    requires b <= |h.preimage| && c <= |h.preimage|
    ensures |Part(Partly(q, h, b), h)| == b && Partly(Partly(q, h, b), h, c) == Partly(q, h, c)
    ensures Partly(q, h, b).jobs == q.jobs && Partly(q, h, b).chunks == q.chunks && h in Partly(q, h, b).objects
  {
  }

  lemma UploadsStill(s: System, d: Device, id: JobId, h: Hash, b: nat)
    requires Uploads(s, d, id, h) && b <= |h.preimage| && Reaches(s, d, With(s, Partly(s.q, h, b)))
    ensures Uploads(With(s, Partly(s.q, h, b)), d, id, h)
  {
    hide SystemOk, Reaches, Partly;
    PartlyPart(s.q, h, b, b);
    ReachesOk(s, d, With(s, Partly(s.q, h, b)));
  }

  /** Packet by packet to any length short of the block. */
  lemma {:induction false} PartReaches(s: System, d: Device, id: JobId, h: Hash, b: nat)
    requires Uploads(s, d, id, h) && h !in s.q.chunks && |Part(s.q, h)| < b < |h.preimage|
    ensures Reaches(s, d, With(s, Partly(s.q, h, b)))
    decreases b - |Part(s.q, h)|
  {
    hide Uploads, Reaches, Partly, Filled, Part;
    var n := Min(PACKET, b - |Part(s.q, h)|);
    var a := |Part(s.q, h)| + n;
    PacketReaches(s, d, id, h, n);
    if a < b {
      var t := With(s, Partly(s.q, h, a));
      UploadsStill(s, d, id, h, a);
      PartlyPart(s.q, h, a, b);
      PartReaches(t, d, id, h, b);
      ReachesThen(s, d, t, With(t, Partly(t.q, h, b)));
    }
  }

  /** And to the whole block. */
  lemma BlockReaches(s: System, d: Device, id: JobId, h: Hash)
    requires Uploads(s, d, id, h)
    ensures Reaches(s, d, With(s, Filled(s.q, {h})))
  {
    hide Uploads, Reaches, Partly, Filled, Part, SystemOk;
    UploadsParts(s, d, id, h);
    PartFacts(s, h);
    if h in s.q.chunks {
      ReachesSelf(s, d);
    } else {
      var last := Min(PACKET, |h.preimage| - |Part(s.q, h)|);
      if |h.preimage| - last > |Part(s.q, h)| {
        LastPacket(s, d, id, h, last);
      } else {
        PacketReaches(s, d, id, h, last);
      }
    }
  }

  lemma UploadsParts(s: System, d: Device, id: JobId, h: Hash)
    requires Uploads(s, d, id, h)
    ensures SystemOk(s) && d in s.clients && h in s.q.objects
  {
    hide SystemOk;
  }

  lemma LastPacket(s: System, d: Device, id: JobId, h: Hash, last: nat)
    requires Uploads(s, d, id, h) && h !in s.q.chunks && 0 < last <= PACKET && last <= |h.preimage| && |Part(s.q, h)| < |h.preimage| - last
    ensures Reaches(s, d, With(s, Filled(s.q, {h})))
  {
    hide Uploads, Reaches, Partly, Filled, Part;
    var b := |h.preimage| - last;
    var t := With(s, Partly(s.q, h, b));
    PartReaches(s, d, id, h, b);
    UploadsStill(s, d, id, h, b);
    PartlyPart(s.q, h, b, b);
    PacketReaches(t, d, id, h, last);
    ReachesThen(s, d, t, With(t, Filled(t.q, {h})));
  }

  lemma UploadsAfter(s: System, d: Device, id: JobId, g: Hash, h: Hash)
    requires Uploads(s, d, id, g) && Uploads(s, d, id, h) && Reaches(s, d, With(s, Filled(s.q, {g})))
    ensures Uploads(With(s, Filled(s.q, {g})), d, id, h)
  {
    hide SystemOk, Reaches;
    ReachesOk(s, d, With(s, Filled(s.q, {g})));
  }

  /** Block by block, in any order. */
  lemma {:induction false} BlocksReach(s: System, d: Device, id: JobId, hs: set<Hash>)
    requires forall h | h in hs :: Uploads(s, d, id, h)
    ensures Reaches(s, d, With(s, Filled(s.q, hs)))
    decreases |hs|
  {
    hide Uploads, Reaches, Filled;
    if hs == {} {
      FilledNone(s.q);
      ReachesSelf(s, d);
    } else {
      var g :| g in hs;
      var t := With(s, Filled(s.q, {g}));
      BlockReaches(s, d, id, g);
      forall h | h in hs - {g}
        ensures Uploads(t, d, id, h)
      {
        UploadsAfter(s, d, id, g, h);
      }
      BlocksReach(t, d, id, hs - {g});
      FilledTwice(s.q, {g}, hs - {g});
      assert {g} + (hs - {g}) == hs;
      ReachesThen(s, d, t, With(t, Filled(t.q, hs - {g})));
    }
  }

  // ---------------------------------------------------------------- publications

  lemma StagedReaches(s: System, d: Device, id: JobId)
    requires SystemOk(s) && d in s.clients && id in s.clients[d].outbox && Prepare(s.q, d, s.clients[d].outbox[id]).Done?
    ensures Reaches(s, d, With(s, Prepare(s.q, d, s.clients[d].outbox[id]).after))
  {
    hide SystemOk, Reaches, Prepare, Step;
    PreparesStep(s, d, id);
    ReachesStep(s, d, Prepares(d, id));
  }

  lemma PreparesStep(s: System, d: Device, id: JobId)
    requires d in s.clients && id in s.clients[d].outbox && Prepare(s.q, d, s.clients[d].outbox[id]).Done?
    ensures Step(s, Prepares(d, id)) == With(s, Prepare(s.q, d, s.clients[d].outbox[id]).after)
  {
    hide Prepare;
    assert s.clients[d := s.clients[d]] == s.clients;
  }

  /** What the broker asks for, it may be sent. */
  lemma WantedUploads(s: System, d: Device, id: JobId, c: Client)
    requires SystemOk(s) && d in s.clients && s.clients[d] == c && id in s.q.jobs && s.q.jobs[id].manifest.origin == d
    requires Holding(c, s.q.jobs[id].manifest)
    ensures forall h | h in Wanting(PlanFor(s.q, id)) :: Uploads(s, d, id, h)
  {
    JobBlocks(s, id);
    hide SystemOk;
  }

  lemma JobBlocks(s: System, id: JobId)
    requires SystemOk(s) && id in s.q.jobs
    ensures s.q.jobs[id].needs <= Hashes(s.q.jobs[id].manifest.chunks)
  {
    PartsOf(s);
    InvForm(s.q);
    assert Truthful(s.q.jobs[id].manifest) by { hide SystemOk, Inv, Truthful; }
    hide SystemOk, Inv, Honest, FilesTracked, Truthful;
    TruthfulSizes(s.q.jobs[id].manifest);
  }

  /** A stop that leaves the partial file longer than it was, as packets do. */
  ghost predicate BetweenPackets(q: Queue, p: Stop) {
    p.Uploading? ==> StillOpen(q, p)
  }

  ghost predicate StillOpen(q: Queue, p: Stop)
    requires p.Uploading?
  {
    p.h !in Filled(q, p.done).chunks && |Part(Filled(q, p.done), p.h)| < p.bytes < |p.h.preimage|
  }

  lemma PreparedState(s: System, d: Device, id: JobId)
    requires SystemOk(s) && d in s.clients && id in s.clients[d].outbox && Prepare(s.q, d, s.clients[d].outbox[id]).Done?
    ensures var m := s.clients[d].outbox[id]; var t := With(s, Prepare(s.q, d, m).after);
      && Reaches(s, d, t) && SystemOk(t) && m.id == id && s.clients[d].role == d && id in t.q.jobs && t.q.jobs[id].manifest == m && m.origin == d
      && Prepare(s.q, d, m).reply == PlanFor(t.q, id)
      && forall h | h in Wanting(PlanFor(t.q, id)) :: Uploads(t, d, id, h)
  {
    hide SystemOk, Reaches, Prepare, Holding, Truthful, ValidManifest, Uploads, PlanFor, Wanting;
    var m := s.clients[d].outbox[id];
    var t := With(s, Prepare(s.q, d, m).after);
    StagedReaches(s, d, id);
    ReachesOk(s, d, t);
    OutboxKnown(s, d, id);
    PreparedJob(s.q, d, m);
    WantedUploads(t, d, id, s.clients[d]);
  }

  lemma SomeUploads(t: System, d: Device, id: JobId, done: set<Hash>)
    requires id in t.q.jobs && done <= Wanting(PlanFor(t.q, id)) && forall h | h in Wanting(PlanFor(t.q, id)) :: Uploads(t, d, id, h)
    ensures Reaches(t, d, With(t, Filled(t.q, done)))
    ensures forall h | h in Wanting(PlanFor(t.q, id)) && h !in done :: Uploads(With(t, Filled(t.q, done)), d, id, h)
  {
    hide Reaches, Wanting, PlanFor, Uploads;
    BlocksReach(t, d, id, done);
    forall h | h in Wanting(PlanFor(t.q, id)) && h !in done
      ensures Uploads(With(t, Filled(t.q, done)), d, id, h)
    {
      FilledUploads(t, d, id, done, h);
    }
  }

  lemma FilledUploads(t: System, d: Device, id: JobId, done: set<Hash>, h: Hash)
    requires Uploads(t, d, id, h) && Reaches(t, d, With(t, Filled(t.q, done)))
    ensures Uploads(With(t, Filled(t.q, done)), d, id, h)
  {
    hide SystemOk, Reaches;
    ReachesOk(t, d, With(t, Filled(t.q, done)));
  }

  /** Every state in which power can be lost between two packets or after the commit is reached by steps of the device. */
  lemma InterruptedPublicationIsRun(s: System, d: Device, id: JobId, p: Stop)
    requires SystemOk(s) && d in s.clients && id in s.clients[d].outbox
    requires var m := s.clients[d].outbox[id];
      s.clients[d].role == d && Stoppable(s.clients[d], s.q, m, p) && BetweenPackets(Prepare(s.q, d, m).after, p)
    ensures var c := s.clients[d]; Reaches(s, d, With(s, StoppedBy(c, s.q, c.outbox[id], p)))
  {
    hide SystemOk, Reaches, Prepare, Commit, Filled, Partly, Uploads, Wanting, PlanFor, Part;
    var c := s.clients[d];
    var m := c.outbox[id];
    var t := With(s, Prepare(s.q, d, m).after);
    PreparedState(s, d, id);
    match p
    case Resting(done) =>
      SomeUploads(t, d, id, done);
      ReachesThen(s, d, t, With(t, Filled(t.q, done)));
    case Uploading(done, h, bytes) =>
      var u := With(t, Filled(t.q, done));
      assert h !in done by { if h in done { FilledHas(t.q, done, h); } }
      SomeUploads(t, d, id, done);
      ReachesThen(s, d, t, u);
      PartReaches(u, d, id, h, bytes);
      ReachesThen(s, d, u, With(u, Partly(u.q, h, bytes)));
    case Committing => CommittedReaches(s, d, id);
  }

  lemma FilledHas(q: Queue, done: set<Hash>, h: Hash)
    requires h in done
    ensures h in Filled(q, done).chunks
  {
  }

  lemma CommitsStep(s: System, d: Device, id: JobId)
    requires d in s.clients && id in s.clients[d].outbox && Commit(s.q, d, id).Done?
    ensures Step(s, SyncSystem.Commits(d, id)) == With(s, Commit(s.q, d, id).after)
  {
    hide Commit;
    assert s.clients[d := s.clients[d]] == s.clients;
  }

  lemma CommittedReaches(s: System, d: Device, id: JobId)
    requires SystemOk(s) && d in s.clients && id in s.clients[d].outbox
    requires s.clients[d].role == d && Publishes(s.clients[d], s.q, s.clients[d].outbox[id])
    ensures Reaches(s, d, With(s, PublishedBy(s.clients[d], s.q, s.clients[d].outbox[id])))
  {
    hide SystemOk, Reaches, Prepare, Commit, Filled, Uploads, Wanting, PlanFor, Supplies, Step;
    var m := s.clients[d].outbox[id];
    var t := With(s, Prepare(s.q, d, m).after);
    PreparedState(s, d, id);
    var w := Wanting(PlanFor(t.q, id));
    SomeUploads(t, d, id, w);
    var u := With(t, Filled(t.q, w));
    ReachesThen(s, d, t, u);
    CommitsStep(u, d, id);
    ReachesStep(u, d, SyncSystem.Commits(d, id));
    ReachesThen(s, d, u, With(u, Commit(u.q, d, id).after));
  }

  lemma PublishedCommits(s: System, d: Device, id: JobId)
    requires SystemOk(s) && d in s.clients && id in s.clients[d].outbox
    requires s.clients[d].role == d && Publishes(s.clients[d], s.q, s.clients[d].outbox[id])
    ensures IsCommitted(PublishedBy(s.clients[d], s.q, s.clients[d].outbox[id]), s.clients[d].outbox[id]) && s.clients[d].outbox[id].id == id
  {
    var m := s.clients[d].outbox[id];
    OutboxKnown(s, d, id);
    PublishedResumes(s.clients[d], s.q, m);
    hide SystemOk, Publishes, PublishedBy, Truthful, ValidManifest, Holding;
  }

  lemma AnnouncesReaches(s: System, d: Device, id: JobId)
    requires d in s.clients && id in s.clients[d].outbox && IsCommitted(s.q, s.clients[d].outbox[id])
    ensures Reaches(s, d, System(s.q, s.clients[d := Announced(s.clients[d], s.clients[d].outbox[id])]))
  {
    ReachesStep(s, d, Announces(d, id));
    hide Reaches, IsCommitted, Announced;
  }

  /** A whole publication is a run of steps of the device. */
  lemma PublicationIsRun(s: System, d: Device, id: JobId)
    requires SystemOk(s) && d in s.clients && id in s.clients[d].outbox
    requires s.clients[d].role == d && Publishes(s.clients[d], s.q, s.clients[d].outbox[id])
    ensures var c := s.clients[d]; var m := c.outbox[id];
      Reaches(s, d, System(PublishedBy(c, s.q, m), s.clients[d := Announced(c, m)]))
  {
    hide SystemOk, Reaches, Publishes, PublishedBy, Announced, IsCommitted;
    CommittedReaches(s, d, id);
    PublishedCommits(s, d, id);
    var t := With(s, PublishedBy(s.clients[d], s.q, s.clients[d].outbox[id]));
    AnnouncesReaches(t, d, id);
    ReachesThen(s, d, t, System(t.q, t.clients[d := Announced(t.clients[d], t.clients[d].outbox[id])]));
  }

  // ---------------------------------------------------------------- repairs

  lemma RestagesReaches(s: System, d: Device, id: JobId)
    requires d in s.clients && RepairPrepare(s.q, d, id).Done?
    ensures Reaches(s, d, With(s, RepairPrepare(s.q, d, id).after))
  {
    RestagesStep(s, d, id);
    ReachesStep(s, d, Restages(d, id));
    hide Reaches, Step, RepairPrepare;
  }

  lemma RestagesStep(s: System, d: Device, id: JobId)
    requires d in s.clients && RepairPrepare(s.q, d, id).Done?
    ensures Step(s, Restages(d, id)) == With(s, RepairPrepare(s.q, d, id).after)
  {
    hide RepairPrepare;
    assert s.clients[d := s.clients[d]] == s.clients;
  }

  lemma RestagedJob(q: Queue, d: Device, id: JobId)
    requires RepairPrepare(q, d, id).Done?
    ensures var q' := RepairPrepare(q, d, id).after;
      && id in q.jobs && id in q'.jobs && q'.jobs[id].manifest == q.jobs[id].manifest && q.jobs[id].manifest.origin == d && q'.jobs[id].state == READY
      && RepairPrepare(q, d, id).reply == PlanFor(q', id).(state := STAGING)
  {
    hide Total, Missing, NewObjects, PlanFor;
  }

  /** A whole repair is a run of steps of the device; the commit it ends with changes nothing. */
  lemma RepairIsRun(s: System, d: Device, id: JobId)
    requires SystemOk(s) && d in s.clients && s.clients[d].role == d && Fixes(s.clients[d], s.q, id)
    ensures Reaches(s, d, With(s, FixedBy(s.clients[d], s.q, id)))
  {
    hide SystemOk, Reaches, RepairPrepare, Filled, Uploads, PlanFor;
    var t := With(s, RepairPrepare(s.q, d, id).after);
    RestagesReaches(s, d, id);
    ReachesOk(s, d, t);
    RestagedJob(s.q, d, id);
    var w := PlanFor(t.q, id).needed.Keys;
    forall h | h in w
      ensures Uploads(t, d, id, h)
    {
      RepairUploads(s, t, d, id, h);
    }
    BlocksReach(t, d, id, w);
    ReachesThen(s, d, t, With(t, Filled(t.q, w)));
  }

  lemma RepairUploads(s: System, t: System, d: Device, id: JobId, h: Hash)
    requires SystemOk(t) && d in t.clients && id in t.q.jobs && t.q.jobs[id].manifest.origin == d && t.q.jobs[id].state == READY
    requires h in PlanFor(t.q, id).needed
    ensures Uploads(t, d, id, h)
  {
    OwnBlocks(t, d, id);
    hide SystemOk;
    assert h in t.q.jobs[id].blocks by { hide Uploads; }
  }
}
