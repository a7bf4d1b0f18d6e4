/** Uploading one block, packet by packet, from whatever partial file the broker has. */
module Uploading {
  import opened Base
  import opened BrokerState
  import opened BrokerInvariants
  import opened BrokerGuarantees
  import opened ClientState
  import opened Publishing
  import opened SyncPoints

  /** The device may upload the block for the job. */
  predicate Writable(q: Queue, role: Device, id: JobId, h: Hash) {
    && id in q.jobs && q.jobs[id].manifest.origin == role && q.jobs[id].state != DELIVERED && h in q.jobs[id].needs
    && h in q.objects && q.objects[h].size == |h.preimage|
  }

  /** The broker as it was, but for the partial file of one block and its row. */
  predicate Alike(q: Queue, q1: Queue, h: Hash) {
    && q1 == q.(uploads := q1.uploads, objects := q1.objects)
    && q1.uploads - {h} == q.uploads - {h}
    && h in q1.objects && q1.objects == q.objects[h := q1.objects[h]]
  }

  lemma AlikeFilled(q: Queue, q1: Queue, h: Hash)
    requires Alike(q, q1, h)
    ensures Filled(q1, {h}) == Filled(q, {h})
  {
    FilledOne(q, h);
    FilledOne(q1, h);
    var o := Object(|h.preimage|, true, |h.preimage|);
    assert q1.objects[h := o] == q.objects[h := o];
    FilledRest(q, {h});
    FilledRest(q1, {h});
    hide Filled;
  }

  lemma FilledRest(q: Queue, hs: set<Hash>)
    ensures var f := Filled(q, hs); f == q.(chunks := f.chunks, uploads := f.uploads, objects := f.objects)
  {
  }

  lemma AlikeTwice(q: Queue, a: Queue, b: Queue, h: Hash)
    requires Alike(q, a, h) && Alike(a, b, h)
    ensures Alike(q, b, h)
  {
  }

  lemma PublishedFilled(q: Queue, h: Hash)
    requires FilesTracked(q.objects, q.chunks, q.uploads) && h in q.chunks && q.objects[h].size == |h.preimage|
    ensures Filled(q, {h}) == q
  {
    FilledOne(q, h);
    assert q.chunks[h] == h.preimage;
    FilledRest(q, {h});
    assert q.objects[h := Object(|h.preimage|, true, |h.preimage|)] == q.objects;
    hide Filled, FilesTracked;
    assert q.uploads - {h} == q.uploads by { NotPartial(q, h); }
  }

  lemma NotPartial(q: Queue, h: Hash)
    requires FilesTracked(q.objects, q.chunks, q.uploads) && h in q.chunks
    ensures h !in q.uploads
  {
  }

  lemma FilledOne(q: Queue, h: Hash)
    ensures Filled(q, {h}).chunks == q.chunks[h := h.preimage] && Filled(q, {h}).uploads == q.uploads - {h}
    ensures Filled(q, {h}).objects == q.objects[h := Object(|h.preimage|, true, |h.preimage|)]
  {
  }

  /** Asking for the offset changes nothing and tells how much is there: everything just when the block is published. */
  lemma Asked(q: Queue, role: Device, id: JobId, h: Hash)
    requires FilesTracked(q.objects, q.chunks, q.uploads) && (h in q.objects ==> q.objects[h].size == |h.preimage|)
    ensures var o := Upload(q, role, id, h, None, []);
      o.Done? ==> Writable(q, role, id, h) && o.after == q && o.reply.offset == (if h in q.chunks then |h.preimage| else |Part(q, h)|)
    ensures h in q.objects && h !in q.chunks ==> |Part(q, h)| < |h.preimage|
  {
    if h in q.objects {
      RefreshedSame(q, h);
    }
    hide Refreshed;
  }

  /** The answer to the packet that continues the partial file. */
  lemma Put(q: Queue, role: Device, id: JobId, h: Hash, payload: Bytes)
    requires Inv(q) && Writable(q, role, id, h) && h !in q.chunks
    requires 0 < |payload| <= PACKET && |Part(q, h)| + |payload| <= |h.preimage|
    ensures var o := Upload(q, role, id, h, Some(|Part(q, h)|), payload);
      o.Done? && (o.after, o.reply) == Appended(q, h, payload) && Inv(o.after)
  {
    hide Inv, Appended;
    HandleInv(q, role, PutRequest(id, h, Some(|Part(q, h)|), payload));
  }

  /** Before the last packet the partial file grows; a true prefix stays one. */
  lemma Grows(q: Queue, role: Device, id: JobId, h: Hash, n: nat)
    requires Writable(q, role, id, h) && h !in q.chunks && |Part(q, h)| + n < |h.preimage|
    ensures var at := |Part(q, h)|; var (q1, ack) := Appended(q, h, h.preimage[at..at + n]);
      && Alike(q, q1, h) && Writable(q1, role, id, h) && h !in q1.chunks
      && |Part(q1, h)| == at + n && ack == Ack(at + n, false, false, false)
      && (Part(q, h) <= h.preimage ==> Part(q1, h) <= h.preimage)
  {
  }

  /** The last packet publishes a true block, and throws anything else away. */
  lemma Finishes(q: Queue, role: Device, id: JobId, h: Hash)
    requires Writable(q, role, id, h) && h !in q.chunks && |Part(q, h)| <= |h.preimage|
    ensures var at := |Part(q, h)|; var (q1, ack) := Appended(q, h, h.preimage[at..]);
      if Part(q, h) <= h.preimage then q1 == Filled(q, {h}) && ack == Ack(|h.preimage|, true, false, false)
      else Alike(q, q1, h) && Writable(q1, role, id, h) && h !in q1.chunks && Part(q1, h) == [] && ack == Ack(0, false, true, true)
  {
    var at := |Part(q, h)|;
    if Part(q, h) <= h.preimage {
      SliceAppended(q, h, h.preimage[at..]);
      hide Filled;
    } else {
      assert (Part(q, h) + h.preimage[at..])[..at] == Part(q, h);
      assert q.uploads - {h} - {h} == q.uploads - {h};
    }
  }

  // ---------------------------------------------------------------- the loop

  ghost function PutPoints(c: Client, q: Queue, h: Hash): iset<Point> {
    iset{(c, q), (c, Filled(q, {h}))} + iset n: nat | n <= |h.preimage| :: (c, Partly(q, h, n))
  }

  /** Between two packets: the partial file is shorter than the block, after at most one reset, and after a reset or
      from a true prefix on it is a true prefix. */
  ghost predicate Putting(c: Client, q: Queue, role: Device, id: JobId, h: Hash, q1: Queue, resets: nat,
                          before: seq<Point>, log: seq<Point>) {
    && Inv(q1) && Writable(q1, role, id, h) && h !in q1.chunks && Alike(q, q1, h)
    && |Part(q1, h)| < |h.preimage| && resets <= 1 && (resets == 1 ==> Part(q1, h) <= h.preimage)
    && (Part(q, h) <= h.preimage ==>
          && resets == 0 && Part(q1, h) <= h.preimage && (q1 == q || q1 == Partly(q, h, |Part(q1, h)|))
          && Grown(before, log, PutPoints(c, q, h)))
  }

  ghost predicate Uploaded(c: Client, q: Queue, h: Hash, q1: Queue, before: seq<Point>, log: seq<Point>) {
    && Inv(q1) && q1 == Filled(q, {h})
    && (Part(q, h) <= h.preimage ==> Grown(before, log, PutPoints(c, q, h)))
  }

  lemma PartlyTwice(q: Queue, h: Hash, a: nat, b: nat)
    requires a <= |h.preimage| && b <= |h.preimage|
    ensures Partly(Partly(q, h, a), h, b) == Partly(q, h, b)
  {
    assert q.uploads[h := h.preimage[..a]][h := h.preimage[..b]] == q.uploads[h := h.preimage[..b]];
    var o := Object(|h.preimage|, false, b);
    assert q.objects[h := Object(|h.preimage|, false, a)][h := o] == q.objects[h := o];
  }

  lemma GrowsTrue(q: Queue, q1: Queue, role: Device, id: JobId, h: Hash, n: nat)
    requires Writable(q1, role, id, h) && h !in q1.chunks && |Part(q1, h)| + n < |h.preimage|
    requires Part(q1, h) <= h.preimage && (q1 == q || q1 == Partly(q, h, |Part(q1, h)|))
    ensures var at := |Part(q1, h)|; Appended(q1, h, h.preimage[at..at + n]).0 == Partly(q, h, at + n)
  {
    var at := |Part(q1, h)|;
    SliceAppended(q1, h, h.preimage[at..at + n]);
    PartlyTwice(q, h, at, at + n);
    hide Appended, Partly;
  }

  lemma PartlyPoint(c: Client, q: Queue, h: Hash, n: nat)
    requires n <= |h.preimage|
    ensures (c, Partly(q, h, n)) in PutPoints(c, q, h)
  {
    hide Filled, Partly;
  }

  /** What the client sends next: the block's bytes from the end of the partial file on, a packet at most. */
  function Packet(q1: Queue, h: Hash): Bytes {
    var at := |Part(q1, h)|;
    if at >= |h.preimage| then [] else h.preimage[at..Min(at + PACKET, |h.preimage|)]
  }

  lemma PuttingShort(c: Client, q: Queue, role: Device, id: JobId, h: Hash, q1: Queue, resets: nat, before: seq<Point>, log: seq<Point>)
    requires Putting(c, q, role, id, h, q1, resets, before, log)
    ensures h in q1.objects && |Part(q1, h)| < |h.preimage|
  {
    hide Inv, Alike, Grown;
  }

  lemma PacketIs(q1: Queue, h: Hash)
    requires |Part(q1, h)| < |h.preimage|
    ensures Packet(q1, h) == h.preimage[|Part(q1, h)|..Min(|Part(q1, h)| + PACKET, |h.preimage|)]
  {
  }

  lemma UploadedEnd(c: Client, q: Queue, h: Hash, q1: Queue, before: seq<Point>, log: seq<Point>)
    requires Uploaded(c, q, h, q1, before, log)
    ensures Inv(q1) && q1 == Filled(q, {h}) && (Part(q, h) <= h.preimage ==> Grown(before, log, PutPoints(c, q, h)))
  {
    hide Inv, Filled, PutPoints, Grown;
  }

  lemma PacketSent(c: Client, q: Queue, role: Device, id: JobId, h: Hash, q1: Queue, resets: nat, before: seq<Point>, log: seq<Point>)
    requires Putting(c, q, role, id, h, q1, resets, before, log)
    ensures h in q1.objects && Upload(q1, role, id, h, Some(|Part(q1, h)|), Packet(q1, h))
         == Done(Appended(q1, h, Packet(q1, h)).0, Appended(q1, h, Packet(q1, h)).1)
    ensures Inv(Appended(q1, h, Packet(q1, h)).0)
  {
    hide Inv, Alike, Grown, Appended, Upload;
    Put(q1, role, id, h, Packet(q1, h));
  }

  lemma StepGrows(c: Client, q: Queue, role: Device, id: JobId, h: Hash, q1: Queue, resets: nat,
                  before: seq<Point>, log: seq<Point>, q2: Queue, ack: Ack)
    requires Putting(c, q, role, id, h, q1, resets, before, log) && |Part(q1, h)| + PACKET < |h.preimage|
    requires (q2, ack) == Appended(q1, h, Packet(q1, h)) && Inv(q2)
    ensures ack == Ack(|Part(q1, h)| + PACKET, false, false, false) && |Part(q2, h)| == ack.offset
    ensures Putting(c, q, role, id, h, q2, resets, before, log + [(c, q2)])
  {
    hide Inv, Appended, Alike, Writable, Grown, Partly, PutPoints;
    Grows(q1, role, id, h, PACKET);
    AlikeTwice(q, q1, q2, h);
    if Part(q, h) <= h.preimage {
      GrowsTrue(q, q1, role, id, h, PACKET);
      PartlyPoint(c, q, h, |Part(q1, h)| + PACKET);
      GrownOne(before, log, (c, q2), PutPoints(c, q, h));
    }
  }

  lemma StepFinishes(c: Client, q: Queue, role: Device, id: JobId, h: Hash, q1: Queue, resets: nat,
                     before: seq<Point>, log: seq<Point>, q2: Queue, ack: Ack)
    requires Putting(c, q, role, id, h, q1, resets, before, log) && |h.preimage| <= |Part(q1, h)| + PACKET
    requires (q2, ack) == Appended(q1, h, Packet(q1, h)) && Inv(q2) && Part(q1, h) <= h.preimage
    ensures ack == Ack(|h.preimage|, true, false, false) && Uploaded(c, q, h, q2, before, log + [(c, q2)])
  {
    hide Inv, Appended, Alike, Writable, Filled, Partly, Grown;
    assert Packet(q1, h) == h.preimage[|Part(q1, h)|..];
    Finishes(q1, role, id, h);
    AlikeFilled(q, q1, h);
    if Part(q, h) <= h.preimage {
      GrownOne(before, log, (c, q2), PutPoints(c, q, h));
    }
  }

  lemma StepResets(c: Client, q: Queue, role: Device, id: JobId, h: Hash, q1: Queue, resets: nat,
                   before: seq<Point>, log: seq<Point>, q2: Queue, ack: Ack)
    requires Putting(c, q, role, id, h, q1, resets, before, log) && |h.preimage| <= |Part(q1, h)| + PACKET
    requires (q2, ack) == Appended(q1, h, Packet(q1, h)) && Inv(q2) && !(Part(q1, h) <= h.preimage)
    ensures ack == Ack(0, false, true, true) && Part(q2, h) == [] && resets == 0
    ensures Putting(c, q, role, id, h, q2, 1, before, log + [(c, q2)])
  {
    hide Inv, Appended, Alike, Writable, Filled, Partly, PutPoints, Grown;
    assert Packet(q1, h) == h.preimage[|Part(q1, h)|..];
    Finishes(q1, role, id, h);
    AlikeTwice(q, q1, q2, h);
  }

  /** The answer to a packet: the partial file grows, or the block is published, or, once at most, all starts again. */
  lemma Answered(c: Client, q: Queue, role: Device, id: JobId, h: Hash, q1: Queue, resets: nat,
             before: seq<Point>, log: seq<Point>, q2: Queue, ack: Ack)
    requires Putting(c, q, role, id, h, q1, resets, before, log)
    requires (q2, ack) == Appended(q1, h, Packet(q1, h)) && Inv(q2)
    ensures ack.offset <= |h.preimage|
    ensures if ack.mismatch then resets == 0 && ack.offset == 0 else ack.offset == Min(|Part(q1, h)| + 128 * 1024, |h.preimage|)
    ensures if ack.offset == |h.preimage| then Uploaded(c, q, h, q2, before, log + [(c, q2)])
            else |Part(q2, h)| == ack.offset
                 && Putting(c, q, role, id, h, q2, if ack.mismatch then 1 else resets, before, log + [(c, q2)])
  {
    hide Inv, Appended, Packet, Alike, Writable, Grown;
    if |Part(q1, h)| + PACKET < |h.preimage| {
      StepGrows(c, q, role, id, h, q1, resets, before, log, q2, ack);
    } else if Part(q1, h) <= h.preimage {
      StepFinishes(c, q, role, id, h, q1, resets, before, log, q2, ack);
    } else {
      StepResets(c, q, role, id, h, q1, resets, before, log, q2, ack);
    }
  }

  lemma Starts(c: Client, q: Queue, role: Device, id: JobId, h: Hash, log: seq<Point>, at: nat)
    requires Inv(q) && Writable(q, role, id, h) && at == if h in q.chunks then |h.preimage| else |Part(q, h)|
    ensures at <= |h.preimage|
    ensures if at == |h.preimage| then Uploaded(c, q, h, q, log, log)
            else |Part(q, h)| == at && Putting(c, q, role, id, h, q, 0, log, log)
  {
    hide Inv, Upload, FilesTracked, Grown, Filled, Partly, PutPoints;
    FilesOf(q);
    Asked(q, role, id, h);
    GrownNone(log, PutPoints(c, q, h));
    if h in q.chunks {
      PublishedFilled(q, h);
    }
  }

  // ---------------------------------------------------------------- a whole plan

  lemma AskedDone(q: Queue, role: Device, id: JobId, h: Hash)
    requires Inv(q) && Writable(q, role, id, h)
    ensures Upload(q, role, id, h, None, []).Done?
  {
    FilesOf(q);
    hide Inv;
    RefreshedSame(q, h);
    hide FilesTracked, Refreshed, Appended, Offset;
  }

  /** The cache supplies what a plan needs. */
  predicate Supplied(c: Client, needed: map<Hash, Object>) {
    forall h | h in needed :: h in c.cache && needed[h].size == |h.preimage|
  }

  ghost function PlanPoints(c: Client, q: Queue, hs: set<Hash>): iset<Point> {
    (iset done: set<Hash> | done <= hs :: (c, Filled(q, done)))
    + iset done: set<Hash>, h: Hash, n: nat | done <= hs && h in hs && n <= |h.preimage| :: (c, Partly(Filled(q, done), h, n))
  }

  lemma PutsPlanned(c: Client, q: Queue, hs: set<Hash>, done: set<Hash>, h: Hash)
    requires done <= hs && h in hs
    ensures PutPoints(c, Filled(q, done), h) <= PlanPoints(c, q, hs)
  {
    hide Filled, Partly;
    FilledTwice(q, done, {h});
    forall e | e in PutPoints(c, Filled(q, done), h)
      ensures e in PlanPoints(c, q, hs)
    {
      if e == (c, Filled(Filled(q, done), {h})) {
        assert done + {h} <= hs;
      }
    }
  }

  lemma StillPlanned(q: Queue, id: JobId, done: set<Hash>, h: Hash)
    requires h !in done && id in q.jobs
    ensures var f := Filled(q, done);
      && f.jobs == q.jobs && (h in f.objects <==> h in q.objects) && (h in q.objects ==> f.objects[h] == q.objects[h])
      && Part(f, h) == Part(q, h)
  {
  }

  /** Whether a planned block is taken depends on the cache only. */
  lemma PlannedTaken(q: Queue, role: Device, id: JobId, done: set<Hash>, h: Hash)
    requires id in q.jobs && q.jobs[id].manifest.origin == role && q.jobs[id].state != DELIVERED
    requires h in PlanFor(q, id).needed && h !in done && Inv(Filled(q, done))
    ensures h in Filled(q, done).objects && Filled(q, done).objects[h].size == PlanFor(q, id).needed[h].size
    ensures PlanFor(q, id).needed[h].size == |h.preimage| ==> Upload(Filled(q, done), role, id, h, None, []).Done?
    ensures Part(Filled(q, done), h) == Part(q, h)
  {
    hide Inv, Upload;
    StillPlanned(q, id, done, h);
    hide Filled;
    if PlanFor(q, id).needed[h].size == |h.preimage| {
      AskedDone(Filled(q, done), role, id, h);
    }
  }

  ghost predicate Whole(q: Queue, needed: map<Hash, Object>) {
    forall h | h in needed :: Part(q, h) <= h.preimage
  }

  /** Some blocks of a plan are uploaded. */
  ghost predicate Planned(c: Client, q: Queue, needed: map<Hash, Object>, done: set<Hash>, q1: Queue, before: seq<Point>, log: seq<Point>) {
    && Inv(q1) && q1 == Filled(q, done) && done <= needed.Keys
    && (forall h | h in done :: h in c.cache && needed[h].size == |h.preimage|)
    && (Whole(q, needed) ==> Grown(before, log, PlanPoints(c, q, needed.Keys)))
  }

  lemma PlanBegins(c: Client, q: Queue, needed: map<Hash, Object>, log: seq<Point>)
    requires Inv(q)
    ensures Planned(c, q, needed, {}, q, log, log)
  {
    hide Inv, Filled, PlanPoints, Grown;
    FilledNone(q);
    GrownNone(log, PlanPoints(c, q, needed.Keys));
  }

  lemma PlannedSupplied(c: Client, q: Queue, needed: map<Hash, Object>, q1: Queue, before: seq<Point>, log: seq<Point>)
    requires Planned(c, q, needed, needed.Keys, q1, before, log)
    ensures Supplied(c, needed)
  {
    hide Inv, Filled, PlanPoints, Grown;
  }

  /** What one more upload of the plan meets, and what it leaves. */
  lemma PlanContinues(c: Client, q: Queue, role: Device, id: JobId, needed: map<Hash, Object>, done: set<Hash>, h: Hash,
                      q1: Queue, before: seq<Point>, log: seq<Point>)
    requires id in q.jobs && q.jobs[id].manifest.origin == role && q.jobs[id].state != DELIVERED && needed == PlanFor(q, id).needed
    requires Planned(c, q, needed, done, q1, before, log) && h in needed && h !in done
    ensures h in q1.objects && q1.objects[h].size == needed[h].size
    ensures needed[h].size == |h.preimage| ==> Upload(q1, role, id, h, None, []).Done?
    ensures forall q2, log2 :: h in c.cache && needed[h].size == |h.preimage| && Inv(q2) && q2 == Filled(q1, {h})
                               && (Part(q1, h) <= h.preimage ==> Grown(log, log2, PutPoints(c, q1, h))) ==>
              Planned(c, q, needed, done + {h}, q2, before, log2)
  {
    hide Inv, Filled, PlanPoints, PutPoints, Grown, Upload, Part, PlanFor;
    PlannedTaken(q, role, id, done, h);
    PutsPlanned(c, q, needed.Keys, done, h);
    FilledTwice(q, done, {h});
    forall log2 | Whole(q, needed) && Grown(log, log2, PutPoints(c, q1, h))
      ensures Grown(before, log2, PlanPoints(c, q, needed.Keys))
    {
      GrownMore(before, log, log2, PutPoints(c, q1, h), PlanPoints(c, q, needed.Keys));
    }
  }

  // ---------------------------------------------------------------- a whole publication

  ghost predicate TrueParts(q: Queue) {
    forall h | h in q.uploads :: q.uploads[h] <= h.preimage
  }

  /** The states that publication recovers from, and the one at the end. */
  ghost function PublishPoints(c: Client, q: Queue, m: Manifest): iset<Point>
    requires Publishes(c, q, m)
  {
    (iset s | Stoppable(c, q, m, s) :: (c, StoppedBy(c, q, m, s))) + iset{(Announced(c, m), PublishedBy(c, q, m))}
  }

  /** What staging leaves: the plan belongs to a job of this device, under the invariant. */
  lemma Prepared(q: Queue, role: Device, m: Manifest)
    requires Inv(q) && Prepare(q, role, m).Done?
    ensures var o := Prepare(q, role, m); var q1 := o.after;
      && Inv(q1) && m.id in q1.jobs && q1.jobs[m.id].manifest.origin == role && o.reply == PlanFor(q1, m.id)
      && o.reply.state == q1.jobs[m.id].state && q1.uploads == q.uploads
  {
    hide Inv, Prepare;
    HandleInv(q, role, PrepareRequest(m));
    PreparedJob(q, role, m);
    PreparedUploads(q, role, m);
  }

  lemma PreparedUploads(q: Queue, role: Device, m: Manifest)
    requires Prepare(q, role, m).Done?
    ensures Prepare(q, role, m).after.uploads == q.uploads
  {
  }

  lemma Committed(q: Queue, role: Device, id: JobId)
    requires Inv(q)
    ensures Inv(After(q, Commit(q, role, id)))
  {
    hide Inv, Commit;
    HandleInv(q, role, CommitRequest(id));
  }

  /** A publication in three parts: staging, uploading what is wanted, committing. */
  lemma PublishParts(c: Client, q: Queue, m: Manifest)
    ensures var plan := Prepare(q, c.role, m);
      if !plan.Done? then !Publishes(c, q, m)
      else
        var q2 := if plan.reply.state == STAGING then Filled(plan.after, plan.reply.needed.Keys) else plan.after;
        && (Publishes(c, q, m) <==> (plan.reply.state == STAGING ==> Supplied(c, plan.reply.needed)) && Commit(q2, c.role, m.id).Done?)
        && (Publishes(c, q, m) ==> PublishedBy(c, q, m) == Commit(q2, c.role, m.id).after)
  {
    hide Prepare, Commit, Filled;
    if Prepare(q, c.role, m).Done? {
      FilledNone(Prepare(q, c.role, m).after);
    }
  }

  lemma StopPoint(c: Client, q: Queue, m: Manifest, s: Stop)
    requires Publishes(c, q, m) && Stoppable(c, q, m, s)
    ensures (c, StoppedBy(c, q, m, s)) in PublishPoints(c, q, m)
  {
    hide Publishes, Stoppable, StoppedBy, PublishedBy, Announced;
  }

  lemma PlansPublished(c: Client, q: Queue, m: Manifest)
    requires Publishes(c, q, m)
    ensures var plan := Prepare(q, c.role, m); PlanPoints(c, plan.after, Wanting(plan.reply)) <= PublishPoints(c, q, m)
  {
    hide Publishes, Filled, Partly, Prepare, Commit;
    var plan := Prepare(q, c.role, m);
    assert plan.Done? by { PublishesDone(c, q, m); }
    var hs := Wanting(plan.reply);
    forall done | done <= hs
      ensures (c, Filled(plan.after, done)) in PublishPoints(c, q, m)
    {
      StopPoint(c, q, m, Resting(done));
    }
    forall done: set<Hash>, h: Hash, n: nat | done <= hs && h in hs && n <= |h.preimage|
      ensures (c, Partly(Filled(plan.after, done), h, n)) in PublishPoints(c, q, m)
    {
      StopPoint(c, q, m, Uploading(done, h, n));
    }
  }

  lemma PublishesDone(c: Client, q: Queue, m: Manifest)
    requires Publishes(c, q, m)
    ensures Prepare(q, c.role, m).Done?
  {
    hide Prepare, Commit, Filled, Supplies;
  }

  lemma PublishedPoints(c: Client, q: Queue, m: Manifest, start: seq<Point>, staged: seq<Point>, uploaded: seq<Point>)
    requires Publishes(c, q, m) && Prepare(q, c.role, m).Done? && staged == start + [(c, Prepare(q, c.role, m).after)]
    requires Grown(staged, uploaded, PlanPoints(c, Prepare(q, c.role, m).after, Wanting(Prepare(q, c.role, m).reply)))
    ensures var q' := PublishedBy(c, q, m); Grown(start, uploaded + [(c, q')] + [(Announced(c, m), q')], PublishPoints(c, q, m))
  {
    hide Prepare, Filled, Grown, PlanPoints, Publishes;
    var q1, all := Prepare(q, c.role, m).after, PublishPoints(c, q, m);
    PlansPublished(c, q, m);
    FilledNone(q1);
    StopPoint(c, q, m, Resting({}));
    StopPoint(c, q, m, Committing);
    var q' := PublishedBy(c, q, m);
    assert (Announced(c, m), q') in all;
    hide PublishPoints, PublishedBy, Announced, StoppedBy, Stoppable, Wanting;
    GrownNone(start, all);
    GrownOne(start, start, (c, q1), all);
    GrownMore(start, staged, uploaded, PlanPoints(c, q1, Wanting(Prepare(q, c.role, m).reply)), all);
    GrownOne(start, uploaded, (c, q'), all);
    GrownOne(start, uploaded + [(c, q')], (Announced(c, m), q'), all);
  }

  lemma PlannedEnd(c: Client, q: Queue, needed: map<Hash, Object>, q1: Queue, before: seq<Point>, log: seq<Point>)
    requires Planned(c, q, needed, needed.Keys, q1, before, log)
    ensures Inv(q1) && q1 == Filled(q, needed.Keys)
    ensures TrueParts(q) ==> Grown(before, log, PlanPoints(c, q, needed.Keys))
  {
    hide Inv, Filled, PlanPoints, Grown;
  }

  // ---------------------------------------------------------------- a whole repair

  /** A repair leaves the version committed; the plan says STAGING so that its blocks are uploaded. */
  lemma Restocked(q: Queue, role: Device, id: JobId)
    requires Inv(q) && RepairPrepare(q, role, id).Done?
    ensures var o := RepairPrepare(q, role, id); var q1 := o.after;
      && Inv(q1) && id in q1.jobs && q1.jobs[id].manifest.origin == role && q1.jobs[id].state == READY
      && o.reply.needed == PlanFor(q1, id).needed && o.reply.state == STAGING
  {
    hide Inv, Restaged, Allocated;
    HandleInv(q, role, RepairRequest(id));
    RestagedJob(q, id);
    hide PlanFor;
  }

  lemma RestagedJob(q: Queue, id: JobId)
    requires id in q.jobs
    ensures var q1 := Restaged(q, id);
      id in q1.jobs && q1.jobs[id].manifest == q.jobs[id].manifest && q1.jobs[id].state == q.jobs[id].state
  {
  }

  lemma CommitNothing(q: Queue, hs: set<Hash>, role: Device, id: JobId)
    requires id in q.jobs && q.jobs[id].manifest.origin == role && q.jobs[id].state == READY
    ensures var f := Filled(q, hs); Commit(f, role, id) == Done(f, ManifestHash(f.jobs[id].manifest))
  {
  }

  /** From every state a successful publication has left on disk, publishing again ends exactly where it ended. */
  lemma LoggedPublishes(c: Client, q: Queue, m: Manifest, e: Point)
    requires Publishes(c, q, m) && e in PublishPoints(c, q, m)
    ensures e == (Announced(c, m), PublishedBy(c, q, m))
            || (e.0 == c && Publishes(c, e.1, m) && PublishedBy(c, e.1, m) == PublishedBy(c, q, m))
  {
    hide Publishes, PublishedBy, Announced, Stoppable, StoppedBy;
    if e != (Announced(c, m), PublishedBy(c, q, m)) {
      var s :| Stoppable(c, q, m, s) && e == (c, StoppedBy(c, q, m, s));
      PublicationRecovers(c, q, m, s);
    }
  }
}
