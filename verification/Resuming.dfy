/** When a saved outbox version can be published, whatever became of the broker since it was first tried. */
module Resuming {
  import opened Base
  import opened BrokerState
  import opened BrokerInvariants
  import opened BrokerGuarantees
  import opened ClientState
  import opened Publishing
  import opened SyncSystem
  import opened SyncInvariants
  import opened SyncGuarantees
  import opened SyncPoints
  import Uploading

  /** Nobody else has taken the file's head in the meantime, or the version made it before. */
  ghost predicate StillNext(q: Queue, m: Manifest) {
    (m.id in q.jobs && q.jobs[m.id].Committed()) || HeadOf(q, m.key) == m.parent
  }

  /** A version with cached blocks can supply whatever is asked of it. */
  lemma HeldSupplies(c: Client, q: Queue, m: Manifest)
    requires WellFormed(q.jobs) && Honest(q) && m.id in q.jobs && q.jobs[m.id].manifest == m && Truthful(m) && Holding(c, m)
    ensures Supplies(c, PlanFor(q, m.id))
  {
    TruthfulSizes(m);
    assert q.jobs[m.id].needs <= q.jobs[m.id].blocks.Keys && q.jobs[m.id].blocks == Sizes(m.chunks) by { hide Sizes, ValidManifest; }
    hide WellFormed, Honest, Truthful, Sizes;
    NeedsSupplied(c, q, m.id, q.jobs[m.id].blocks.Keys);
  }

  lemma FilledUploaded(q: Queue, id: JobId)
    requires id in q.jobs && q.jobs[id].state == STAGING
    requires forall h | h in q.jobs[id].needs && h in q.objects :: q.objects[h].size == |h.preimage|
    ensures Uploaded(Filled(q, Wanting(PlanFor(q, id))), id)
  {
    var f := Filled(q, Wanting(PlanFor(q, id)));
    forall h | h in Tracked(f, id)
      ensures Offset(f, h, f.objects[h].size) == Some(f.objects[h].size)
    {
      assert h in Wanting(PlanFor(q, id));
    }
  }

  lemma FilledHeads(q: Queue, hs: set<Hash>, k: Key)
    ensures HeadOf(Filled(q, hs), k) == HeadOf(q, k) && Filled(q, hs).jobs == q.jobs
  {
  }

  /** Committing what is filled succeeds exactly for a version that is still next. */
  lemma FilledCommits(q: Queue, role: Device, m: Manifest)
    requires Honest(q) && m.id in q.jobs && q.jobs[m.id].manifest == m && m.origin == role
    ensures Commit(Filled(q, Wanting(PlanFor(q, m.id))), role, m.id).Done? <==> StillNext(q, m)
  {
    FilledHeads(q, Wanting(PlanFor(q, m.id)), m.key);
    assert forall h | h in q.objects :: q.objects[h].size == |h.preimage|;
    if q.jobs[m.id].state == STAGING {
      FilledUploaded(q, m.id);
    }
    hide Honest, Filled, Wanting, Uploaded, Published, PlanFor;
  }

  lemma PreparedSame(q: Queue, role: Device, m: Manifest)
    requires Prepare(q, role, m).Done?
    ensures var q' := Prepare(q, role, m).after; StillNext(q', m) == StillNext(q, m)
    ensures m.id in q.jobs ==> Prepare(q, role, m).after == q
    ensures m.id !in q.jobs ==> Prepare(q, role, m).after == Staged(q, role, m) && StillNext(q, m)
  {
    hide Total, Allocated, Absent, Needed, Sizes, NewObjects, Others, ValidManifest, PlanFor;
  }

  /** A truthful version with cached blocks is published exactly when the broker takes it and the head is free for it. */
  lemma PublishesExactly(c: Client, q: Queue, m: Manifest)
    requires Inv(q) && Honest(q) && Truthful(m) && Holding(c, m)
    ensures Publishes(c, q, m) <==> Prepare(q, c.role, m).Done? && StillNext(q, m)
  {
    hide Truthful, Holding, Commit, Prepare, Staged, StillNext, Inv, Honest;
    if Prepare(q, c.role, m).Done? {
      var q' := Prepare(q, c.role, m).after;
      PreparedJob(q, c.role, m);
      PreparedSame(q, c.role, m);
      PrepareInv(q, c.role, m);
      PreparedHonest(q, c.role, m);
      InvForm(q');
      HeldSupplies(c, q', m);
      FilledCommits(q', c.role, m);
    }
  }

  lemma InvForm(q: Queue)
    requires Inv(q)
    ensures WellFormed(q.jobs)
  {
    hide Numbered, WellFormed, Parented, Headed, OnlyChildren, ReceiptsBacked, BoundReceive, FilesTracked, StagedTracked, WithinQuota;
  }

  lemma PreparedHonest(q: Queue, role: Device, m: Manifest)
    requires Honest(q) && Prepare(q, role, m).Done? && Truthful(m)
    ensures Honest(Prepare(q, role, m).after)
  {
    PreparedSame(q, role, m);
    hide Honest, Truthful, Prepare, Staged;
    if m.id !in q.jobs {
      StagedHonest(q, role, m);
    }
  }

  /** Asking again for a version the broker knows. */
  lemma KnownPrepares(q: Queue, role: Device, m: Manifest)
    requires m.id in q.jobs && q.jobs[m.id].manifest == m && ValidManifest(m) && m.origin == role
    ensures Prepare(q, role, m).Done? <==> m.key.dataset in q.datasets
    ensures Prepare(q, role, m).Done? ==> Prepare(q, role, m) == Done(q, PlanFor(q, m.id))
  {
    hide Total, Allocated, Absent, Needed, Sizes, NewObjects, ValidManifest, PlanFor;
  }

  /** What publishing leaves: nothing new for a committed version, otherwise the version is the file's head. */
  ghost predicate ResumesTo(c: Client, q: Queue, m: Manifest)
    requires Publishes(c, q, m)
  {
    var q' := PublishedBy(c, q, m);
    if m.id in q.jobs && q.jobs[m.id].Committed() then q' == q
    else IsCommitted(q', m) && HeadOf(q', m.key) == Some(m.id) && m.origin in q'.jobs[m.id].receipts
  }

  lemma ResumedHead(q: Queue, role: Device, m: Manifest)
    requires m.id in q.jobs && q.jobs[m.id].manifest == m && q.jobs[m.id].state == STAGING && Commit(q, role, m.id).Done?
    ensures var q' := Commit(q, role, m.id).after;
      IsCommitted(q', m) && HeadOf(q', m.key) == Some(m.id) && m.origin in q'.jobs[m.id].receipts
  {
    hide Uploaded, Stocked, Tracked;
  }

  lemma ResumedSame(q: Queue, role: Device, m: Manifest)
    requires m.id in q.jobs && q.jobs[m.id].Committed() && Commit(Filled(q, {}), role, m.id).Done?
    ensures Commit(Filled(q, {}), role, m.id).after == q
  {
    FilledNone(q);
    hide Filled, Uploaded, Published;
  }

  lemma NewStaging(q: Queue, role: Device, m: Manifest)
    requires Prepare(q, role, m).Done? && m.id !in q.jobs
    ensures var q' := Prepare(q, role, m).after; m.id in q'.jobs && q'.jobs[m.id].manifest == m && q'.jobs[m.id].state == STAGING
  {
    hide Total, Allocated, Absent, Needed, Sizes, NewObjects, Others, ValidManifest, PlanFor;
  }

  lemma PublishedResumes(c: Client, q: Queue, m: Manifest)
    requires Publishes(c, q, m)
    ensures ResumesTo(c, q, m)
  {
    PreparedJob(q, c.role, m);
    PreparedSame(q, c.role, m);
    if m.id !in q.jobs { NewStaging(q, c.role, m); }
    hide Prepare, Commit, Filled, Staged, StillNext, IsCommitted, HeadOf, ValidManifest;
    var q' := Prepare(q, c.role, m).after;
    var w := Wanting(PlanFor(q', m.id));
    FilledJobs(q', w);
    if q'.jobs[m.id].Committed() {
      ResumedSame(q', c.role, m);
    } else {
      ResumedHead(Filled(q', w), c.role, m);
    }
  }

  lemma FilledJobs(q: Queue, hs: set<Hash>)
    ensures Filled(q, hs).jobs == q.jobs
  {
  }

  /** Every run, choices and other devices' use of the broker included: a device's saved outbox version can be published
      exactly when the broker takes it, or knows it, and no other version has become the file's head. */
  lemma OutboxPublishes(quota: nat, devices: set<Device>, events: seq<Event>, d: Device, id: JobId)
    requires var s := Reach(quota, devices, events); d in s.clients && id in s.clients[d].outbox
    ensures var s := Reach(quota, devices, events); var c := s.clients[d]; var m := c.outbox[id];
      && (id in s.q.jobs ==> (Publishes(c, s.q, m) <==> m.key.dataset in s.q.datasets && StillNext(s.q, m)))
      && (id !in s.q.jobs ==> (Publishes(c, s.q, m) <==> Prepare(s.q, d, m).Done?))
      && (Publishes(c, s.q, m) ==> ResumesTo(c, s.q, m))
  {
    var s := Reach(quota, devices, events);
    var c := s.clients[d];
    var m := c.outbox[id];
    hide Reach, SystemOk, Inv, Honest, FilesTracked, Truthful, Holding, Prepare, Publishes, PublishedBy, StillNext, ResumesTo;
    ReachOk(quota, devices, events);
    PartsOf(s);
    OutboxKnown(s, d, id);
    PublishesExactly(c, s.q, m);
    if id in s.q.jobs {
      KnownPrepares(s.q, d, m);
    } else if Prepare(s.q, d, m).Done? {
      PreparedSame(s.q, d, m);
    }
    if Publishes(c, s.q, m) {
      PublishedResumes(c, s.q, m);
    }
  }

  lemma OutboxKnown(s: System, d: Device, id: JobId)
    requires SystemOk(s) && d in s.clients && id in s.clients[d].outbox
    ensures var c := s.clients[d]; var m := c.outbox[id];
      && c.role == d && m.id == id && m.origin == d && Truthful(m) && ValidManifest(m) && Holding(c, m)
      && (id in s.q.jobs ==> s.q.jobs[id].manifest == m)
  {
    DeviceOf(s, d);
    hide SystemOk, DeviceInv, HeadsCommitted, RowsKnown, BlocksKept, Holding;
    assert Truthful(s.clients[d].outbox[id]) by { hide Truthful; }
  }

  /** After power loss anywhere in a publication and any use of the broker by others since, publishing the saved version
      again goes through exactly when no other version became the file's head, and then makes it the head. With nobody else
      at the broker it ends exactly as the first try would have. */
  lemma PublicationResumes(c: Client, q: Queue, m: Manifest, p: Stop, q': Queue)
    requires Stoppable(c, q, m, p) && Evolves(StoppedBy(c, q, m, p), q') && q.datasets <= q'.datasets
    requires Inv(q') && Honest(q') && Truthful(m) && Holding(c, m)
    ensures Publishes(c, q', m) <==> StillNext(q', m)
    ensures Publishes(c, q', m) ==> ResumesTo(c, q', m)
    ensures p.Committing? ==> Publishes(c, q', m) && PublishedBy(c, q', m) == q'
    ensures Publishes(c, q, m) && q' == StoppedBy(c, q, m, p) ==> Publishes(c, q', m) && PublishedBy(c, q', m) == PublishedBy(c, q, m)
  {
    if Publishes(c, q, m) { PublicationRecovers(c, q, m, p); }
    StoppedJob(c, q, m, p);
    hide Stoppable, StoppedBy, Inv, Honest, Truthful, Holding, Prepare, Publishes, PublishedBy, ValidManifest, ResumesTo;
    PublishesExactly(c, q', m);
    KnownPrepares(q', c.role, m);
    if Publishes(c, q', m) {
      PublishedResumes(c, q', m);
      if p.Committing? { SameResumes(c, q', m); }
    }
  }

  lemma SameResumes(c: Client, q: Queue, m: Manifest)
    requires Publishes(c, q, m) && ResumesTo(c, q, m) && m.id in q.jobs && q.jobs[m.id].Committed()
    ensures PublishedBy(c, q, m) == q
  {
    hide PublishedBy, Publishes;
  }

  /** The same from every state a successful publication has left on disk. */
  lemma LoggedResumes(c: Client, q: Queue, m: Manifest, e: Point, q': Queue)
    requires Publishes(c, q, m) && e in Uploading.PublishPoints(c, q, m)
    requires Evolves(e.1, q') && q.datasets <= q'.datasets && Inv(q') && Honest(q') && Truthful(m) && Holding(c, m)
    ensures e == (Announced(c, m), PublishedBy(c, q, m))
            || (&& e.0 == c
                && (Publishes(c, q', m) <==> StillNext(q', m))
                && (Publishes(c, q', m) ==> ResumesTo(c, q', m))
                && (q' == e.1 ==> Publishes(c, q', m) && PublishedBy(c, q', m) == PublishedBy(c, q, m)))
  {
    hide Publishes, PublishedBy, Announced, Stoppable, StoppedBy, StillNext, ResumesTo, Inv, Honest, Truthful, Holding, Evolves;
    if e != (Announced(c, m), PublishedBy(c, q, m)) {
      var p :| Stoppable(c, q, m, p) && e == (c, StoppedBy(c, q, m, p));
      PublicationResumes(c, q, m, p, q');
    }
  }

  /** From the first durable write on, the broker knows the version. */
  lemma StoppedJob(c: Client, q: Queue, m: Manifest, p: Stop)
    requires Stoppable(c, q, m, p)
    ensures var q' := StoppedBy(c, q, m, p);
      && m.id in q'.jobs && q'.jobs[m.id].manifest == m && ValidManifest(m) && m.origin == c.role && m.key.dataset in q.datasets
      && (p.Committing? ==> q'.jobs[m.id].Committed())
  {
    PreparedJob(q, c.role, m);
    PreparedDataset(q, c.role, m);
    var q1 := Prepare(q, c.role, m).after;
    match p
    case Resting(done) =>
      FilledJobs(q1, done);
      hide Prepare, Filled;
    case Uploading(done, h, n) =>
      FilledJobs(q1, done);
      hide Prepare, Filled;
    case Committing =>
      hide Prepare, Filled;
      FilledJobs(q1, Wanting(PlanFor(q1, m.id)));
      hide Wanting;
  }

  lemma PreparedDataset(q: Queue, role: Device, m: Manifest)
    requires Prepare(q, role, m).Done?
    ensures m.key.dataset in q.datasets
  {
    hide Total, Allocated, Absent, Needed, Sizes, NewObjects, Others, ValidManifest, PlanFor, Staged;
  }
}
