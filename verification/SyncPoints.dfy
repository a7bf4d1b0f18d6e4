/** The durable states a session passes through, and how those of its parts make up those of the whole. */
module SyncPoints {
  import opened Base
  import opened BrokerState
  import opened BrokerInvariants
  import opened BrokerGuarantees
  import opened ClientState
  import opened Receiving
  import Recovery

  /** What is on disk, of the device and of the broker, between two durable writes. */
  type Point = (Client, Queue)

  ghost predicate Verified(cache: map<Hash, Bytes>) {
    forall h | h in cache :: Sha256(cache[h]) == h
  }

  lemma VerifiedMore(cache: map<Hash, Bytes>, h: Hash, data: Bytes)
    requires Verified(cache) && Sha256(data) == h
    ensures Verified(cache[h := data]) && cache[h := data].Keys == cache.Keys + {h}
  {
  }

  lemma Rewritten(files: map<Hash, Bytes>, h: Hash, a: Bytes, b: Bytes)
    ensures files[h := a][h := b] == files[h := b]
  {
  }

  lemma Closed(files: map<Hash, Bytes>, h: Hash, a: Bytes)
    ensures files[h := a] - {h} == files - {h}
  {
  }

  /** Entries were added to a log, all of them allowed. */
  ghost predicate Grown(before: seq<Point>, after: seq<Point>, allowed: iset<Point>) {
    && |before| <= |after| && after[..|before|] == before
    && forall i | |before| <= i < |after| :: after[i] in allowed
  }

  lemma GrownNone(a: seq<Point>, allowed: iset<Point>)
    ensures Grown(a, a, allowed)
  {
  }

  lemma GrownOne(a: seq<Point>, b: seq<Point>, e: Point, allowed: iset<Point>)
    requires Grown(a, b, allowed) && e in allowed
    ensures Grown(a, b + [e], allowed)
  {
  }

  lemma GrownMore(a: seq<Point>, b: seq<Point>, c: seq<Point>, some: iset<Point>, allowed: iset<Point>)
    requires Grown(a, b, allowed) && Grown(b, c, some) && some <= allowed
    ensures Grown(a, c, allowed)
  {
    assert c[..|a|] == c[..|b|][..|a|];
    forall i | |a| <= i < |c|
      ensures c[i] in allowed
    {
      if i < |b| {
        assert c[i] == c[..|b|][i];
      }
    }
  }

  // ---------------------------------------------------------------- seeding

  ghost function SeedPoints(c: Client, q: Queue, blocks: seq<Bytes>): iset<Point> {
    iset n: nat | n <= |blocks| :: (Seeded(c, blocks[..n]), q)
  }

  lemma SeededNone(c: Client)
    ensures Seeded(c, []) == c
  {
  }

  lemma SeededOne(c: Client, blocks: seq<Bytes>, block: Bytes)
    ensures Seeded(c, blocks + [block]) == WithBlock(Seeded(c, blocks), Sha256(block))
  {
    var all := blocks + [block];
    assert all[|blocks|] == block && forall i | 0 <= i < |blocks| :: all[i] == blocks[i];
    assert (set i | 0 <= i < |all| :: Sha256(all[i])) == (set i | 0 <= i < |blocks| :: Sha256(blocks[i])) + {Sha256(block)};
  }

  lemma SeedPoint(c: Client, q: Queue, blocks: seq<Bytes>, done: seq<Bytes>)
    requires done <= blocks
    ensures (Seeded(c, done), q) in SeedPoints(c, q, blocks)
  {
    assert blocks[..|done|] == done;
  }

  lemma SlicesStep(data: Bytes, list: seq<Chunk>, at: nat, i: nat, done: seq<Bytes>)
    requires i < |list| && at <= |data| && Slices(data, list) == done + Slices(data[at..], list[i..])
    requires 0 < list[i].size <= MAX_CHUNK && at + list[i].size <= |data|
    ensures var block := data[at..at + list[i].size];
      && Slices(data, list) == done + [block] + Slices(data[at + list[i].size..], list[i + 1..])
      && done + [block] <= Slices(data, list)
  {
    var block := data[at..at + list[i].size];
    SlicesHead(data[at..], list[i..]);
    assert data[at..][..list[i].size] == block && data[at..][list[i].size..] == data[at + list[i].size..];
    assert list[i..][1..] == list[i + 1..];
    hide Slices;
    Pushed(done, block, Slices(data[at + list[i].size..], list[i + 1..]));
  }

  lemma SlicesHead(data: Bytes, list: seq<Chunk>)
    requires list != [] && 0 < list[0].size <= MAX_CHUNK && list[0].size <= |data|
    ensures Slices(data, list) == [data[..list[0].size]] + Slices(data[list[0].size..], list[1..])
  {
  }

  lemma Pushed(done: seq<Bytes>, block: Bytes, rest: seq<Bytes>)
    ensures done + ([block] + rest) == done + [block] + rest
    ensures done + [block] <= done + [block] + rest
  {
  }

  lemma Recut(data: Bytes, list: seq<Chunk>, at: nat, done: seq<Bytes>)
    requires at <= |data| && |done| == |list| && Slices(data, list) == done + Slices(data[at..], [])
    requires forall i | 0 <= i < |list| :: Sha256(done[i]) == list[i].hash
    ensures Recuts(data, list) && Slices(data, list) == done
  {
    assert done + [] == done;
  }

  /** The cut ended early, or a piece is not the block listed. */
  lemma NotRecut(data: Bytes, list: seq<Chunk>, at: nat, i: nat, done: seq<Bytes>)
    requires i < |list| && |done| == i && at <= |data| && Slices(data, list) == done + Slices(data[at..], list[i..])
    requires list[i].size == 0 || list[i].size > MAX_CHUNK || at + list[i].size > |data|
             || Sha256(data[at..at + list[i].size]) != list[i].hash
    ensures !Recuts(data, list)
  {
    if 0 < list[i].size <= MAX_CHUNK && at + list[i].size <= |data| {
      SlicesStep(data, list, at, i, done);
      assert Slices(data, list)[i] == data[at..at + list[i].size];
    }
  }

  // ---------------------------------------------------------------- downloading one block

  ghost function DownloadPoints(c: Client, q: Queue, h: Hash): iset<Point> {
    (iset n: nat | h !in c.cache && |PartOf(c, h)| <= n <= |h.preimage| :: (WithPartial(c, h, n), q))
    + if h in c.cache then iset{} else iset{(WithDownload(c, h), q)}
  }

  lemma DownloadPoint(c: Client, q: Queue, h: Hash, part: Bytes)
    requires h !in c.cache && PartOf(c, h) <= part <= h.preimage
    ensures (c.(partial := c.partial[h := part]), q) in DownloadPoints(c, q, h)
  {
    assert h.preimage[..|part|] == part;
    assert WithPartial(c, h, |part|) == c.(partial := c.partial[h := part]);
  }

  lemma LastDownloadPoint(c: Client, q: Queue, h: Hash)
    requires h !in c.cache
    ensures (WithDownload(c, h), q) in DownloadPoints(c, q, h)
  {
  }

  lemma GetServed(q: Queue, id: JobId, h: Hash, offset: nat)
    requires Get(q, id, h, offset).Done?
    ensures Served(q, id, h)
  {
  }

  /** While a block can be fetched, the broker's next packet continues it. */
  lemma NextPacket(c: Client, q: Queue, id: JobId, chunk: Chunk, part: Bytes)
    requires Fetchable(c, q, id, chunk) && chunk.hash !in c.cache
    requires PartOf(c, chunk.hash) <= part <= chunk.hash.preimage && |part| < chunk.size
    ensures var packet := Get(q, id, chunk.hash, |part|);
      packet.Done? && packet.reply != [] && |part| + |packet.reply| <= chunk.size && part + packet.reply <= chunk.hash.preimage
  {
    var n := Min(|part| + PACKET, |chunk.hash.preimage|);
    assert part + chunk.hash.preimage[|part|..n] == chunk.hash.preimage[..n];
  }

  lemma FetchableSize(c: Client, q: Queue, id: JobId, chunk: Chunk)
    requires Fetchable(c, q, id, chunk)
    ensures |chunk.hash.preimage| == chunk.size <= 2 * 1024 * 1024
  {
  }

  lemma CachedFetchable(cache: map<Hash, Bytes>, c: Client, q: Queue, id: JobId, chunk: Chunk)
    requires Verified(cache) && c.cache == cache.Keys && (chunk.size > MAX_CHUNK || chunk.hash in c.cache)
    ensures Fetchable(c, q, id, chunk)
       <==> chunk.size <= MAX_CHUNK && chunk.hash in cache && Sha256(cache[chunk.hash]) == chunk.hash && |cache[chunk.hash]| == chunk.size
  {
  }

  /** A download in progress: a longer partial file, right so far if the block can be fetched at all. */
  ghost predicate Underway(c: Client, q: Queue, id: JobId, chunk: Chunk, part: Bytes, before: seq<Point>, log: seq<Point>) {
    && PartOf(c, chunk.hash) <= part && |part| <= chunk.size
    && (part == PartOf(c, chunk.hash) || Served(q, id, chunk.hash))
    && (Fetchable(c, q, id, chunk) ==> part <= chunk.hash.preimage && Grown(before, log, DownloadPoints(c, q, chunk.hash)))
  }

  lemma UnderwaySize(c: Client, q: Queue, id: JobId, chunk: Chunk, part: Bytes, before: seq<Point>, log: seq<Point>)
    requires Underway(c, q, id, chunk, part, before, log)
    ensures |part| <= chunk.size
  {
  }

  lemma Begun(c: Client, q: Queue, id: JobId, chunk: Chunk, log: seq<Point>)
    requires chunk.hash !in c.cache
    ensures var part := PartOf(c, chunk.hash); var first := (c.(partial := c.partial[chunk.hash := part]), q);
      && (|part| <= chunk.size ==> Underway(c, q, id, chunk, part, log, log + [first]))
      && (|part| > chunk.size ==> !Fetchable(c, q, id, chunk))
  {
    if Fetchable(c, q, id, chunk) {
      DownloadPoint(c, q, chunk.hash, PartOf(c, chunk.hash));
    }
    hide DownloadPoints, Fetchable;
  }

  lemma Continued(c: Client, q: Queue, id: JobId, chunk: Chunk, part: Bytes, before: seq<Point>, log: seq<Point>)
    requires chunk.hash !in c.cache && Underway(c, q, id, chunk, part, before, log) && |part| < chunk.size
    ensures var packet := Get(q, id, chunk.hash, |part|);
      if packet.Done? && packet.reply != [] && |part| + |packet.reply| <= chunk.size then
        Underway(c, q, id, chunk, part + packet.reply, before,
                 log + [(c.(partial := c.partial[chunk.hash := part + packet.reply]), q)])
      else !Fetchable(c, q, id, chunk)
  {
    if Get(q, id, chunk.hash, |part|).Done? { GetServed(q, id, chunk.hash, |part|); }
    if Fetchable(c, q, id, chunk) {
      NextPacket(c, q, id, chunk, part);
      DownloadPoint(c, q, chunk.hash, part + Get(q, id, chunk.hash, |part|).reply);
    }
    hide DownloadPoints, Fetchable, Served, Get;
  }

  /** A partial file of full size holds the block exactly when the block could be fetched. */
  lemma Ended(c: Client, q: Queue, id: JobId, chunk: Chunk, part: Bytes, before: seq<Point>, log: seq<Point>)
    requires Inv(q) && chunk.hash !in c.cache && chunk.size <= MAX_CHUNK
    requires Underway(c, q, id, chunk, part, before, log) && |part| == chunk.size
    ensures Sha256(part) == chunk.hash <==> Fetchable(c, q, id, chunk)
    ensures Sha256(part) == chunk.hash ==> Grown(before, log + [(WithDownload(c, chunk.hash), q)], DownloadPoints(c, q, chunk.hash))
  {
    FilesOf(q);
    hide Inv;
    LastDownloadPoint(c, q, chunk.hash);
    hide DownloadPoints;
  }

  // ---------------------------------------------------------------- downloading a version

  ghost function GatherPoints(c: Client, q: Queue, m: Manifest): iset<Point> {
    (iset n: nat | n <= |m.chunks| :: (Fetched(Journaled(c, m), m.chunks[..n]), q))
    + iset n: nat, bytes: nat | Fetches(c, m, n, bytes) ::
        (WithPartial(Fetched(Journaled(c, m), m.chunks[..n]), m.chunks[n].hash, bytes), q)
  }

  predicate Fetches(c: Client, m: Manifest, n: nat, bytes: nat) {
    && n < |m.chunks| && m.chunks[n].hash !in Fetched(c, m.chunks[..n]).cache
    && |PartOf(c, m.chunks[n].hash)| <= bytes <= |m.chunks[n].hash.preimage|
  }

  lemma DownloadGathers(c: Client, q: Queue, m: Manifest, n: nat)
    requires n < |m.chunks|
    ensures DownloadPoints(Fetched(Journaled(c, m), m.chunks[..n]), q, m.chunks[n].hash) <= GatherPoints(c, q, m)
  {
    var f := Fetched(Journaled(c, m), m.chunks[..n]);
    var h := m.chunks[n].hash;
    NextFetched(Journaled(c, m), m.chunks, n);
    FetchedPart(c, m, n);
    hide Fetched, Journaled;
    forall e | e in DownloadPoints(f, q, h)
      ensures e in GatherPoints(c, q, m)
    {
      if e == (WithDownload(f, h), q) {
        assert e == (Fetched(Journaled(c, m), m.chunks[..n + 1]), q);
      } else {
        var bytes: nat :| |PartOf(f, h)| <= bytes <= |h.preimage| && e == (WithPartial(f, h, bytes), q);
        assert Fetches(c, m, n, bytes);
      }
    }
  }

  lemma FetchedPart(c: Client, m: Manifest, n: nat)
    requires n < |m.chunks|
    ensures var f := Fetched(Journaled(c, m), m.chunks[..n]); var h := m.chunks[n].hash;
      f.cache == Fetched(c, m.chunks[..n]).cache && (h !in f.cache ==> PartOf(f, h) == PartOf(c, h))
  {
  }

  lemma NextFetched(c: Client, chunks: seq<Chunk>, n: nat)
    requires n < |chunks|
    ensures var before := Fetched(c, chunks[..n]); var h := chunks[n].hash;
      Fetched(c, chunks[..n + 1]) == if h in before.cache then before else WithDownload(before, h)
  {
    assert chunks[..n + 1][..n] == chunks[..n];
    FetchedMore(c, chunks[..n + 1]);
    hide Hashes;
  }

  /** Fetching the blocks before it does not make a block fetchable that was not. */
  lemma FetchableAfter(c: Client, q: Queue, m: Manifest, n: nat)
    requires n < |m.chunks| && forall i | 0 <= i < n :: Fetchable(c, q, m.id, m.chunks[i])
    ensures Fetchable(Fetched(Journaled(c, m), m.chunks[..n]), q, m.id, m.chunks[n]) <==> Fetchable(c, q, m.id, m.chunks[n])
  {
    FetchedPart(c, m, n);
    var h := m.chunks[n].hash;
    if h in Hashes(m.chunks[..n]) {
      var i :| 0 <= i < n && m.chunks[i].hash == h;
      assert Fetchable(c, q, m.id, m.chunks[i]);
    }
  }

  // ---------------------------------------------------------------- acknowledging

  lemma AcknowledgeOutcome(q: Queue, role: Device, m: Manifest)
    requires Inv(q)
    ensures var o := Acknowledge(q, role, m.id, ManifestHash(m));
      (o.Done? <==> Receipt(q, role, m.id, ManifestHash(m)).Done?) && Inv(After(q, o))
  {
    hide Inv, Receipt, Gc, Upgrade, Prepare, Upload, Commit, Bind, Unbind, CreateDataset, RepairPrepare;
    HandleInv(q, role, ReceiptRequest(m.id, ManifestHash(m)));
    HandleInv(Handle(q, role, ReceiptRequest(m.id, ManifestHash(m))), role, CollectRequest);
  }

  // ---------------------------------------------------------------- the whole reception

  /** The states that the recovery theorems are about, and the one at the end. */
  ghost function CrashPoints(c: Client, q: Queue, m: Manifest, choice: Choice): iset<Point> {
    (iset p | Possible(c, m, p) :: (Interrupted(c, m, choice, p), InterruptedBy(c, q, m, p)))
    + iset{(Received(c, m, choice), ReceivedBy(c, q, m))}
  }

  lemma SeedsTwice(c: Client, q: Queue, a: seq<Bytes>, b: seq<Bytes>)
    ensures SeedPoints(c, q, a) <= SeedPoints(c, q, a + b)
    ensures SeedPoints(Seeded(c, a), q, b) <= SeedPoints(c, q, a + b)
    ensures Seeded(Seeded(c, a), b) == Seeded(c, a + b)
  {
    forall n: nat | n <= |a|
      ensures (Seeded(c, a[..n]), q) in SeedPoints(c, q, a + b)
    {
      assert (a + b)[..n] == a[..n];
    }
    forall n: nat | n <= |b|
      ensures Seeded(Seeded(c, a), b[..n]) == Seeded(c, (a + b)[..|a| + n])
    {
      assert (a + b)[..|a| + n] == a + b[..n];
      SeededSum(c, a, b[..n]);
    }
    SeededSum(c, a, b);
  }

  lemma SeededSum(c: Client, a: seq<Bytes>, b: seq<Bytes>)
    ensures Seeded(Seeded(c, a), b) == Seeded(c, a + b)
  {
    var all := a + b;
    assert (forall i | 0 <= i < |a| :: all[i] == a[i]) && forall i | 0 <= i < |b| :: all[|a| + i] == b[i];
    assert (set i | 0 <= i < |all| :: Sha256(all[i]))
        == (set i | 0 <= i < |a| :: Sha256(a[i])) + (set i | 0 <= i < |b| :: Sha256(b[i]));
  }

  lemma SeedingCrashes(c: Client, q: Queue, m: Manifest, choice: Choice)
    requires !Journal(c, m, Applied)
    ensures SeedPoints(c, q, Seeds(c, m)) <= CrashPoints(c, q, m, choice)
  {
    hide Seeds, Received, ReceivedBy;
    forall n: nat | n <= |Seeds(c, m)|
      ensures (Seeded(c, Seeds(c, m)[..n]), q) in CrashPoints(c, q, m, choice)
    {
      CrashPoint(c, q, m, choice, Seeding(n));
    }
  }

  lemma CrashPoint(c: Client, q: Queue, m: Manifest, choice: Choice, p: Crash)
    requires Possible(c, m, p)
    ensures (Interrupted(c, m, choice, p), InterruptedBy(c, q, m, p)) in CrashPoints(c, q, m, choice)
  {
    hide Interrupted, InterruptedBy, Possible, Received, ReceivedBy;
  }

  lemma GatheringCrashes(c: Client, q: Queue, m: Manifest, choice: Choice)
    requires !Journal(c, m, Applied)
    ensures GatherPoints(Seeded(c, Seeds(c, m)), q, m) <= CrashPoints(c, q, m, choice)
  {
    var s := Seeded(c, Seeds(c, m));
    forall n: nat | n <= |m.chunks|
      ensures (Fetched(Journaled(s, m), m.chunks[..n]), q) in CrashPoints(c, q, m, choice)
    {
      CrashPoint(c, q, m, choice, Gathering(n));
    }
    forall n: nat, bytes: nat | Fetches(s, m, n, bytes)
      ensures (WithPartial(Fetched(Journaled(s, m), m.chunks[..n]), m.chunks[n].hash, bytes), q) in CrashPoints(c, q, m, choice)
    {
      CrashPoint(c, q, m, choice, Fetching(n, bytes));
    }
    hide CrashPoints, Fetched, Journaled, Seeds, Fetches;
  }

  /** The conditions of a reception up to the marking of its row. */
  predicate Stageable(c: Client, q: Queue, m: Manifest, choice: Choice, policy: Policy) {
    && SeedsMatch(c, m)
    && (m.kind == DELETE ==> policy.deletes || choice.KeepLocal?)
    && Reachable(Seeded(c, Seeds(c, m)), q, m)
  }

  /** The conditions of a reception from then on. */
  predicate Installable(c: Client, q: Queue, m: Manifest, choice: Choice, policy: Policy) {
    && (Stays(c, m, choice) || (if m.kind == PUT then Rebuilds(m) else policy.recycle || m.key !in c.tree))
    && Receipt(q, c.role, m.id, ManifestHash(m)).Done?
  }

  /** Every file that was there still is. */
  predicate NoneGone(before: map<Key, Bytes>, after: map<Key, Bytes>) {
    before.Keys <= after.Keys
  }

  lemma ReceivedIs(c: Client, m: Manifest, choice: Choice)
    requires !Journal(c, m, Applied)
    ensures Received(c, m, choice) == Dropped(Applying(c, m, choice), m.id)
    ensures Applying(c, m, choice) == Accepted(Settled(Readied(c, m), m, Stays(c, m, choice)), m)
  {
    hide Readied, Settled, Stays, Dropped;
  }

  lemma SucceedsParts(c: Client, q: Queue, m: Manifest, choice: Choice, policy: Policy)
    ensures Succeeds(c, q, m, choice, policy)
       <==> if Journal(c, m, Applied) then Confirmable(c, q, m)
            else Acceptable(c, m, choice) && Stageable(c, q, m, choice, policy) && Installable(c, q, m, choice, policy)
  {
    hide SeedsMatch, Reachable, Seeds, Acceptable, Already, Receipt, Rebuilds, Confirmable, Journal;
  }

  lemma JournalPoint(c: Client, q: Queue, m: Manifest)
    ensures (Journaled(c, m), q) in GatherPoints(c, q, m)
  {
    FetchedNone(Journaled(c, m));
    assert m.chunks[..0] == [];
    hide Fetched;
  }

  lemma ReadiedRow(c: Client, m: Manifest)
    ensures m.id in Journaled(Seeded(c, Seeds(c, m)), m).inbox
    ensures Readied(c, m).inbox.Keys == c.inbox.Keys + {m.id} && Hashes(m.chunks) <= Readied(c, m).cache
    ensures Readied(c, m).role == c.role && Readied(c, m).tree == c.tree
  {
    Recovery.ReadiedForm(c, m);
    hide Seeds, Readied;
  }

  lemma ReadiedKept(c: Client, m: Manifest)
    ensures var r := Readied(c, m);
      && r == c.(cache := r.cache, partial := r.partial, inbox := r.inbox) && c.cache <= r.cache && r.inbox - {m.id} == c.inbox - {m.id}
  {
    Recovery.ReadiedForm(c, m);
    hide Seeds, Readied;
  }

  lemma StagedPoints(c: Client, q: Queue, m: Manifest, choice: Choice,
               start: seq<Point>, seeded: seq<Point>, journaled: seq<Point>, gathered: seq<Point>)
    requires !Journal(c, m, Applied)
    requires Grown(start, seeded, SeedPoints(c, q, Seeds(c, m)))
    requires journaled == seeded + [(Journaled(Seeded(c, Seeds(c, m)), m), q)]
    requires Grown(journaled, gathered, GatherPoints(Seeded(c, Seeds(c, m)), q, m))
    ensures Grown(start, gathered + [(Readied(c, m), q)], CrashPoints(c, q, m, choice))
  {
    var s := Seeded(c, Seeds(c, m));
    var all := CrashPoints(c, q, m, choice);
    SeedingCrashes(c, q, m, choice);
    GatheringCrashes(c, q, m, choice);
    JournalPoint(s, q, m);
    LatePoints(c, q, m, choice);
    hide Seeds, Seeded, Grown, Journal, CrashPoints, SeedPoints, GatherPoints, Journaled, Readied;
    GrownNone(start, all);
    GrownMore(start, start, seeded, SeedPoints(c, q, Seeds(c, m)), all);
    GrownOne(start, seeded, (Journaled(s, m), q), all);
    GrownMore(start, journaled, gathered, GatherPoints(s, q, m), all);
    GrownOne(start, gathered, (Readied(c, m), q), all);
  }

  lemma AcknowledgedPoints(c: Client, q: Queue, m: Manifest, choice: Choice, start: seq<Point>)
    requires Journal(c, m, Applied)
    ensures var q' := ReceivedBy(c, q, m);
      Grown(start, start + [(c, q'), (Received(c, m, choice), q')], CrashPoints(c, q, m, choice))
  {
    CrashPoint(c, q, m, choice, Collecting);
    hide ReceivedBy;
  }

  /** With every block at hand and of the right size, only the broker's answer is left to decide. */
  lemma StagedConfirms(c: Client, q: Queue, m: Manifest, choice: Choice, policy: Policy)
    requires Stageable(c, q, m, choice, policy)
    ensures ReceivedBy(Applying(c, m, choice), q, m) == ReceivedBy(c, q, m)
    ensures Confirmable(Applying(c, m, choice), q, m) <==> Receipt(q, c.role, m.id, ManifestHash(m)).Done?
  {
    Recovery.SizesRight(Seeded(c, Seeds(c, m)), q, m);
    Recovery.Applies(c, m, choice);
    hide Receipt, Applying, Seeds, Seeded, Reachable, SeedsMatch, Hashes;
    if Receipt(q, c.role, m.id, ManifestHash(m)).Done? {
      Recovery.Confirms(Applying(c, m, choice), q, m);
    }
  }

  lemma LatePoints(c: Client, q: Queue, m: Manifest, choice: Choice)
    requires !Journal(c, m, Applied)
    ensures var all := CrashPoints(c, q, m, choice); var a := Applying(c, m, choice);
      && (Readied(c, m), q) in all
      && (Settled(Readied(c, m), m, Stays(c, m, choice)), q) in all
      && (a, q) in all && (a, ReceivedBy(c, q, m)) in all && (Dropped(a, m.id), ReceivedBy(c, q, m)) in all
  {
    hide Readied, Settled, Stays, ReceivedBy, Applying, Dropped;
    CrashPoint(c, q, m, choice, Marking);
    CrashPoint(c, q, m, choice, Settling);
    CrashPoint(c, q, m, choice, Recording);
    CrashPoint(c, q, m, choice, Collecting);
  }

  lemma AppliedPoints(c: Client, q: Queue, m: Manifest, choice: Choice, start: seq<Point>, staged: seq<Point>)
    requires !Journal(c, m, Applied) && Grown(start, staged, CrashPoints(c, q, m, choice))
    ensures var q' := ReceivedBy(c, q, m); var a := Applying(c, m, choice);
      Grown(start, staged + [(Settled(Readied(c, m), m, Stays(c, m, choice)), q)] + [(a, q)] + [(a, q'), (Dropped(a, m.id), q')],
            CrashPoints(c, q, m, choice))
  {
    LatePoints(c, q, m, choice);
    hide Stays, Journal, Grown, Settled, Readied, Applying, ReceivedBy, CrashPoints, Received, Dropped;
    var all, a, q' := CrashPoints(c, q, m, choice), Applying(c, m, choice), ReceivedBy(c, q, m);
    var settled := staged + [(Settled(Readied(c, m), m, Stays(c, m, choice)), q)];
    GrownOne(start, staged, (Settled(Readied(c, m), m, Stays(c, m, choice)), q), all);
    GrownOne(start, settled, (a, q), all);
    GrownOne(start, settled + [(a, q)], (a, q'), all);
    GrownOne(start, settled + [(a, q)] + [(a, q')], (Dropped(a, m.id), q'), all);
    assert settled + [(a, q)] + [(a, q')] + [(Dropped(a, m.id), q')] == settled + [(a, q)] + [(a, q'), (Dropped(a, m.id), q')];
  }

  // ---------------------------------------------------------------- power loss

  /** From every state a successful reception has left on disk, under any choice, receiving again ends where it ended. */
  lemma LoggedRecovers(c: Client, q: Queue, m: Manifest, choice: Choice, policy: Policy, e: Point)
    requires Succeeds(c, q, m, choice, policy) && ValidManifest(m) && e in CrashPoints(c, q, m, choice)
    requires choice.UseServer? && m.key in c.files ==> Truthful(c.files[m.key])
    ensures e == (Received(c, m, choice), ReceivedBy(c, q, m))
            || (var again := Recovery.Again(e.0, m, choice);
                && Succeeds(e.0, e.1, m, again, policy)
                && Recovery.SameEnd(c, m, choice, Received(c, m, choice), Received(e.0, m, again))
                && ReceivedBy(e.0, e.1, m) == ReceivedBy(c, q, m))
  {
    hide Succeeds, Received, ReceivedBy, Interrupted, InterruptedBy, Possible, ValidManifest, Truthful, Recovery.Again, Recovery.SameEnd;
    if e != (Received(c, m, choice), ReceivedBy(c, q, m)) {
      var p :| Possible(c, m, p) && e == (Interrupted(c, m, choice, p), InterruptedBy(c, q, m, p));
      Recovery.ReceptionRecoversBroker(c, q, m, choice, policy, p);
    }
  }
}
