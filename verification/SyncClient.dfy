/**
 A device's session as an object. Each method is proved to succeed exactly when its specification says so, to leave
 the specified state, and to pass only through durable states that the recovery theorems speak about: every durable
 write is followed by an entry in the ghost log.
 */
module SyncClient {
  import opened Base
  import opened BrokerState
  import opened BrokerInvariants
  import opened BrokerGuarantees
  import opened BrokerService
  import opened ClientState
  import opened Receiving
  import opened SyncPoints
  import opened Publishing
  import opened Uploading
  import opened Preservation
  import opened Resolution
  import opened Snapshots
  import Chunker
  import opened SyncSystem
  import Convergence
  import opened SessionConvergence
  import Alignment
  import OwnVersions
  import Deletions
  import GoingThrough

  class SyncRun {
    const role: Device
    const broker: Broker
    var files: map<Key, Manifest>
    var outbox: map<JobId, Manifest>
    var inbox: map<JobId, Row>
    var cache: map<Hash, Bytes>
    var partial: map<Hash, Bytes>
    var tree: map<Key, Bytes>
    var recovery: map<(Hash, Path), Bytes>
    ghost var chose: bool
    ghost var log: seq<Point>

    ghost function State(): (c: Client)
      reads this`files, this`outbox, this`inbox, this`cache, this`partial, this`tree, this`recovery, this`chose
      ensures c.role == role && c.inbox == inbox && c.cache == cache.Keys && c.tree == tree && c.outbox == outbox && c.files == files
    {
      Client(role, files, outbox, inbox, cache.Keys, partial, tree, recovery, chose)
    }

    /** Cached files hash to their names, and the broker keeps its invariant. */
    ghost predicate Sound()
      reads this`cache, broker
    {
      Verified(cache) && Inv(broker.State())
    }

    /** This device and its broker are those of a system. */
    ghost predicate Within(s: System)
      reads this, broker
    {
      role in s.clients && s.clients[role] == State() && s.q == broker.State()
    }

    constructor (role: Device, broker: Broker)
      requires Inv(broker.State())
      ensures Sound() && State() == Fresh(role) && this.broker == broker && log == []
    {
      this.role, this.broker, chose, log := role, broker, false, [];
      files, outbox, inbox, cache, partial, tree, recovery := map[], map[], map[], map[], map[], map[], map[];
    }

    ghost method Note()
      modifies this`log
      ensures log == old(log) + [(State(), broker.State())]
    {
      log := log + [(State(), broker.State())];
    }

    // -------------------------------------------------------------- the cache

    /** Whether a block is cached under its name with the expected size, its bytes hashed again. */
    predicate Cached(h: Hash, size: nat)
      reads this
    {
      h in cache && Sha256(cache[h]) == h && |cache[h]| == size
    }

    method CacheBlock(data: Bytes)
      requires Verified(cache)
      modifies this`cache, this`log
      ensures Verified(cache) && State() == WithBlock(old(State()), Sha256(data))
      ensures log == old(log) + [(State(), broker.State())]
    {
      cache := cache[Sha256(data) := data];
      Note();
    }

    /** Cuts a working file at the sizes of a chunk list and caches the pieces, as long as they are the listed blocks. */
    method Seed(data: Bytes, list: seq<Chunk>) returns (ok: bool)
      requires Verified(cache)
      modifies this`cache, this`log
      ensures Verified(cache) && OnlyCaches(old(State()), State())
      ensures ok <==> Recuts(data, list)
      ensures ok ==> State() == Seeded(old(State()), Slices(data, list))
      ensures Grown(old(log), log, SeedPoints(old(State()), broker.State(), Slices(data, list)))
    {
      hide Slices, Seeded, SeedPoints, Recuts, Grown, Verified;
      var at: nat := 0;
      ghost var c, q := State(), broker.State();
      ghost var done: seq<Bytes> := [];
      SeededNone(c);
      GrownNone(log, SeedPoints(c, q, Slices(data, list)));
      for i := 0 to |list|
        invariant at <= |data| && |done| == i
        invariant Slices(data, list) == done + Slices(data[at..], list[i..])
        invariant forall j | 0 <= j < i :: Sha256(done[j]) == list[j].hash
        invariant Verified(cache) && State() == Seeded(c, done) && old(cache).Keys <= cache.Keys
        invariant Grown(old(log), log, SeedPoints(c, q, Slices(data, list)))
      {
        var size := list[i].size;
        if size == 0 || size > MAX_CHUNK || Min(size, |data| - at) != size {
          NotRecut(data, list, at, i, done);
          return false;
        }
        var block := data[at..at + size];
        SlicesStep(data, list, at, i, done);
        SeededOne(c, done, block);
        SeedPoint(c, q, Slices(data, list), done + [block]);
        GrownOne(old(log), log, (Seeded(c, done + [block]), q), SeedPoints(c, q, Slices(data, list)));
        CacheBlock(block);
        done := done + [block];
        if Sha256(block) != list[i].hash {
          NotRecut(data, list, at, i, done[..i]);
          return false;
        }
        at := at + size;
      }
      ok := true;
      assert list[|list|..] == [];
      Recut(data, list, at, done);
    }

    // -------------------------------------------------------------- downloading

    /** Appends packets from the broker to a partial file until it has the block's size. */
    method FetchRest(id: JobId, chunk: Chunk, ghost c: Client, ghost before: seq<Point>) returns (ok: bool)
      requires chunk.hash !in c.cache && chunk.hash in partial && State() == c.(partial := c.partial[chunk.hash := partial[chunk.hash]])
      requires Underway(c, broker.State(), id, chunk, partial[chunk.hash], before, log)
      modifies this`partial, this`log
      ensures chunk.hash in partial && partial == c.partial[chunk.hash := partial[chunk.hash]]
      ensures ok ==> |partial[chunk.hash]| == chunk.size && Underway(c, broker.State(), id, chunk, partial[chunk.hash], before, log)
      ensures !ok ==> !Fetchable(c, broker.State(), id, chunk)
    {
      hide Underway, Fetchable, Get;
      var h := chunk.hash;
      ghost var q := broker.State();
      UnderwaySize(c, q, id, chunk, partial[h], before, log);
      while |partial[h]| < chunk.size
        invariant h in partial && |partial[h]| <= chunk.size && partial == c.partial[h := partial[h]]
        invariant Underway(c, q, id, chunk, partial[h], before, log)
        decreases chunk.size - |partial[h]|
      {
        Continued(c, q, id, chunk, partial[h], before, log);
        var packet := broker.Get(id, h, |partial[h]|);
        if packet.Denied? || packet.value == [] || |partial[h]| + |packet.value| > chunk.size { return false; }
        Rewritten(c.partial, h, partial[h], partial[h] + packet.value);
        partial := partial[h := partial[h] + packet.value];
        Note();
      }
      ok := true;
    }

    /** Opens a partial file, creating it when there is none. */
    method OpenPart(h: Hash)
      modifies this`partial, this`log
      ensures partial == old(partial)[h := PartOf(old(State()), h)]
      ensures log == old(log) + [(State(), broker.State())]
    {
      partial := partial[h := if h in partial then partial[h] else []];
      Note();
    }

    /** Verifies a partial file of full size and renames it into the cache. */
    method KeepBlock(id: JobId, chunk: Chunk, ghost c: Client, ghost before: seq<Point>) returns (ok: bool)
      requires Sound() && chunk.hash !in cache && chunk.size <= MAX_CHUNK
      requires chunk.hash in partial && State() == c.(partial := c.partial[chunk.hash := partial[chunk.hash]])
      requires |partial[chunk.hash]| == chunk.size && Underway(c, broker.State(), id, chunk, partial[chunk.hash], before, log)
      modifies this`cache, this`partial, this`log
      ensures Verified(cache) && old(cache).Keys <= cache.Keys
      ensures ok <==> Fetchable(c, broker.State(), id, chunk)
      ensures ok ==> State() == WithDownload(c, chunk.hash)
      ensures ok ==> Grown(before, log, DownloadPoints(c, broker.State(), chunk.hash))
    {
      hide Inv, Grown, DownloadPoints, Fetchable, Underway, Verified;
      var h := chunk.hash;
      Ended(c, broker.State(), id, chunk, partial[h], before, log);
      ok := Sha256(partial[h]) == h;
      if ok {
        VerifiedMore(cache, h, partial[h]);
        Closed(c.partial, h, partial[h]);
        cache, partial := cache[h := partial[h]], partial - {h};
        Note();
      }
    }

    /** Continues a block's partial file; a whole block is verified and enters the cache. */
    method DownloadMissing(id: JobId, chunk: Chunk) returns (ok: bool)
      requires Sound() && chunk.hash !in cache && chunk.size <= MAX_CHUNK
      modifies this`cache, this`partial, this`log
      ensures Verified(cache) && old(cache).Keys <= cache.Keys
      ensures ok <==> Fetchable(old(State()), broker.State(), id, chunk)
      ensures ok ==> State() == WithDownload(old(State()), chunk.hash)
      ensures ok ==> Grown(old(log), log, DownloadPoints(old(State()), broker.State(), chunk.hash))
    {
      hide Inv, Grown, DownloadPoints, Fetchable, Underway, Verified;
      ghost var c := State();
      Begun(c, broker.State(), id, chunk, log);
      OpenPart(chunk.hash);
      ok := |partial[chunk.hash]| <= chunk.size;
      if ok {
        ok := FetchRest(id, chunk, c, old(log));
      }
      if ok {
        ok := KeepBlock(id, chunk, c, old(log));
      }
    }

    method Download(id: JobId, chunk: Chunk) returns (ok: bool)
      requires Sound()
      modifies this`cache, this`partial, this`log
      ensures Sound() && old(cache).Keys <= cache.Keys
      ensures ok <==> Fetchable(old(State()), broker.State(), id, chunk)
      ensures ok ==> chunk.hash in cache && |chunk.hash.preimage| == chunk.size <= 2 * 1024 * 1024
      ensures ok ==> State() == if chunk.hash in old(cache) then old(State()) else WithDownload(old(State()), chunk.hash)
      ensures ok ==> Grown(old(log), log, DownloadPoints(old(State()), broker.State(), chunk.hash))
    {
      hide Inv, Grown, DownloadPoints, Fetchable, Verified;
      ghost var c := State();
      GrownNone(log, DownloadPoints(State(), broker.State(), chunk.hash));
      if chunk.size > MAX_CHUNK || chunk.hash in cache {
        CachedFetchable(cache, State(), broker.State(), id, chunk);
        ok := chunk.size <= MAX_CHUNK && Cached(chunk.hash, chunk.size);
      } else {
        ok := DownloadMissing(id, chunk);
      }
      if ok { FetchableSize(c, broker.State(), id, chunk); }
    }

    /** The row that says a version is being received. */
    method EnterRow(m: Manifest)
      modifies this`inbox, this`log
      ensures State() == Journaled(old(State()), m) && m.id in inbox && OnlyGathers(old(State()), State(), m)
      ensures inbox == if m.id in old(inbox) then old(inbox) else old(inbox)[m.id := Row(m, Downloading)]
      ensures log == old(log) + [(State(), broker.State())]
    {
      if m.id !in inbox {
        inbox := inbox[m.id := Row(m, Downloading)];
      }
      Note();
    }

    /** Downloads every block of a version that is not cached yet. */
    method DownloadAll(m: Manifest, ghost c: Client) returns (ok: bool)
      requires Sound() && State() == Journaled(c, m)
      modifies this`cache, this`partial, this`log
      ensures Sound() && OnlyGathers(old(State()), State(), m)
      ensures ok <==> Reachable(c, broker.State(), m)
      ensures ok ==> State() == Fetched(Journaled(c, m), m.chunks)
      ensures ok ==> Grown(old(log), log, GatherPoints(c, broker.State(), m))
    {
      hide Inv, Fetchable, Fetched, Journaled, DownloadPoints, GatherPoints, Grown, Verified;
      ghost var q := broker.State();
      GrownNone(log, GatherPoints(c, q, m));
      FetchedNone(State());
      for i := 0 to |m.chunks|
        invariant Sound() && State() == Fetched(Journaled(c, m), m.chunks[..i]) && old(cache).Keys <= cache.Keys
        invariant forall j | 0 <= j < i :: Fetchable(c, q, m.id, m.chunks[j])
        invariant Grown(old(log), log, GatherPoints(c, q, m))
      {
        ghost var begun := log;
        FetchableAfter(c, q, m, i);
        NextFetched(Journaled(c, m), m.chunks, i);
        DownloadGathers(c, q, m, i);
        ok := Download(m.id, m.chunks[i]);
        if !ok { return; }
        GrownMore(old(log), begun, log, DownloadPoints(Fetched(Journaled(c, m), m.chunks[..i]), q, m.chunks[i].hash), GatherPoints(c, q, m));
      }
      assert m.chunks[..|m.chunks|] == m.chunks;
      ok := true;
    }

    method Mark(id: JobId)
      requires id in inbox
      modifies this`inbox, this`log
      ensures State() == Marked(old(State()), id)
      ensures inbox == old(inbox)[id := Row(old(inbox)[id].manifest, Ready)]
      ensures log == old(log) + [(State(), broker.State())]
    {
      inbox := inbox[id := inbox[id].(phase := Ready)];
      Note();
    }

    // -------------------------------------------------------------- the working file

    /** Puts a version's content together from cached blocks, a buffer at a time. */
    method Rebuild(list: seq<Chunk>) returns (content: Bytes)
      requires Verified(cache) && Hashes(list) <= cache.Keys
      ensures content == Blocks(list)
    {
      content := [];
      for i := 0 to |list|
        invariant content + Blocks(list[i..]) == Blocks(list)
      {
        assert list[i].hash in Hashes(list);
        var block, at: nat := cache[list[i].hash], 0;
        ghost var before := content;
        while at < |block|
          invariant at <= |block| && content == before + block[..at]
        {
          var next := Min(at + PACKET, |block|);
          assert block[..at] + block[at..next] == block[..next];
          content := content + block[at..next];
          at := next;
        }
        assert block[..at] == block && list[i..][1..] == list[i + 1..];
        Associate(before, block, Blocks(list[i + 1..]));
      }
    }

    /** Replaces or removes the working file, unless it already is what is wanted. */
    method Settle(m: Manifest, stays: bool, recycle: bool) returns (ok: bool)
      requires Verified(cache) && Hashes(m.chunks) <= cache.Keys
      modifies this`tree, this`log
      ensures ok <==> stays || (if m.kind == PUT then Rebuilds(m) else recycle || m.key !in old(tree))
      ensures ok && !stays && m.kind == PUT ==> m.key in tree && m.sha == Some(Sha256(tree[m.key])) && m.size == |tree[m.key]|
      ensures ok && !stays && m.kind == DELETE ==> m.key !in tree
      ensures !ok ==> State() == old(State())
      ensures ok ==> State() == Settled(old(State()), m, stays) && log == old(log) + [(State(), broker.State())]
      ensures m.kind == PUT || stays || !recycle ==> NoneGone(old(tree), tree)
    {
      hide Blocks, Hashes;
      ok := true;
      if !stays && m.kind == PUT {
        var content := Rebuild(m.chunks);
        ok := m.sha == Some(Sha256(content)) && |content| == m.size;
        if ok {
          tree := tree[m.key := content];
        }
      } else if !stays && m.key in tree {
        ok := recycle;
        if ok {
          tree := tree - {m.key};
        }
      }
      assert ok && !stays && m.kind == DELETE && m.key !in old(tree) ==> old(tree) - {m.key} == old(tree);
      if ok {
        Note();
      }
    }

    /** Records a version as the file's head and its row as applied, in one transaction. */
    method Record(m: Manifest)
      requires m.id in inbox
      modifies this`files, this`inbox, this`log
      ensures State() == Accepted(old(State()), m)
      ensures files == old(files)[m.key := m] && inbox == old(inbox)[m.id := Row(old(inbox)[m.id].manifest, Applied)]
      ensures log == old(log) + [(State(), broker.State())]
    {
      files, inbox := files[m.key := m], inbox[m.id := inbox[m.id].(phase := Applied)];
      Note();
    }

    /** Whether every block of a version is in the cache and of its listed size. */
    method Complete(m: Manifest) returns (ok: bool)
      requires Verified(cache)
      ensures ok <==> forall i | 0 <= i < |m.chunks| :: m.chunks[i].hash in cache && |m.chunks[i].hash.preimage| == m.chunks[i].size
    {
      for i := 0 to |m.chunks|
        invariant forall j | 0 <= j < i :: m.chunks[j].hash in cache && |m.chunks[j].hash.preimage| == m.chunks[j].size
      {
        if !Cached(m.chunks[i].hash, m.chunks[i].size) { return false; }
      }
      ok := true;
    }

    /** With every block verified in the cache, sends the receipt and drops the row. */
    method Acknowledge(m: Manifest) returns (ok: bool)
      requires Sound()
      modifies this`inbox, this`log, broker
      ensures Sound()
      ensures ok <==> Confirmable(old(State()), old(broker.State()), m)
      ensures ok ==> forall i | 0 <= i < |m.chunks| :: m.chunks[i].hash in cache && |m.chunks[i].hash.preimage| == m.chunks[i].size
      ensures !ok ==> State() == old(State()) && broker.State() == old(broker.State())
      ensures ok ==> State() == Dropped(old(State()), m.id)
      ensures ok ==> broker.State() == ReceivedBy(old(State()), old(broker.State()), m)
      ensures ok ==> log == old(log) + [(old(State()), broker.State()), (State(), broker.State())]
    {
      hide Inv, Verified, BrokerService.Broker.State, BrokerState.Acknowledge, Receipt;
      ghost var c, q := State(), broker.State();
      var complete := Complete(m);
      if !complete { return false; }
      var reply := broker.Acknowledge(role, m.id, ManifestHash(m));
      AcknowledgeOutcome(q, role, m);
      if reply.Denied? { return false; }
      Note();
      inbox := inbox - {m.id};
      Note();
      ok := true;
    }

    // -------------------------------------------------------------- one reception

    /** Compares the version with the recorded head and the working file. */
    method Inspect(m: Manifest, choice: Choice) returns (passes: bool, already: bool)
      ensures passes <==> Acceptable(State(), m, choice)
      ensures already <==> Already(State(), m)
    {
      var head := if m.key in files then Some(files[m.key].id) else None;
      var base := if m.key in files then files[m.key].sha else None;
      var actual := if m.key in tree then Some(Sha256(tree[m.key])) else None;
      var matches := actual == m.sha && (m.key in tree ==> |tree[m.key]| == m.size);
      already := matches && (m.sha.Some? || (m.id in inbox && inbox[m.id].phase == Ready));
      passes := match choice
        case NoChoice => m.parent == head && (already || actual == base)
        case KeepLocal(accepted) => actual == accepted
        case UseServer(accepted) => actual == accepted;
    }

    /** Caches the blocks of the version and of the recorded base that the working file still holds. */
    method SeedAll(m: Manifest) returns (ok: bool)
      requires Sound()
      modifies this`cache, this`log
      ensures Sound() && OnlyCaches(old(State()), State())
      ensures ok <==> SeedsMatch(old(State()), m)
      ensures ok ==> State() == Seeded(old(State()), Seeds(old(State()), m))
      ensures Grown(old(log), log, SeedPoints(old(State()), broker.State(), Seeds(old(State()), m)))
    {
      hide Inv, Recuts, Slices, SeedPoints, Seeded, Grown, OnlyCaches, OnlyGathers, Verified, SyncRun.State;
      ghost var c, q := State(), broker.State();
      ghost var a := if Adopted(c, m) then Slices(c.tree[m.key], m.chunks) else [];
      ghost var b := if AtBase(c, m.key) then Slices(c.tree[m.key], c.files[m.key].chunks) else [];
      SeedsTwice(c, q, a, b);
      SeededNone(c);
      SeededNone(Seeded(c, a));
      GrownNone(log, SeedPoints(c, q, a + b));
      CachesGather(c, c, c, m);
      ok := true;
      if m.sha.Some? && m.key in tree && Some(Sha256(tree[m.key])) == m.sha && |tree[m.key]| == m.size {
        ok := Seed(tree[m.key], m.chunks);
        GrownMore(old(log), old(log), log, SeedPoints(c, q, a), SeedPoints(c, q, a + b));
      }
      ghost var h, half := State(), log;
      if ok && m.key in files && m.key in tree && files[m.key].sha == Some(Sha256(tree[m.key])) {
        ok := Seed(tree[m.key], files[m.key].chunks);
        GrownMore(old(log), half, log, SeedPoints(Seeded(c, a), q, b), SeedPoints(c, q, a + b));
        CachesGather(c, h, State(), m);
      }
    }

    /** Seeds the cache, journals the version, downloads its blocks and marks the row. */
    method Stage(m: Manifest, choice: Choice, policy: Policy) returns (ok: bool)
      requires Sound() && !Journal(State(), m, Applied)
      modifies this`cache, this`partial, this`inbox, this`log
      ensures Sound() && OnlyGathers(old(State()), State(), m)
      ensures ok <==> Stageable(old(State()), broker.State(), m, choice, policy)
      ensures ok ==> State() == Readied(old(State()), m) && m.id in inbox && Hashes(m.chunks) <= cache.Keys
      ensures ok ==> Grown(old(log), log, CrashPoints(old(State()), broker.State(), m, choice))
      ensures ok && m.kind == DELETE ==> policy.deletes || choice.KeepLocal?
    {
      hide Inv, Seeds, SeedsMatch, SeedPoints, GatherPoints, CrashPoints, Seeded, Grown, Reachable, Fetched, Hashes, Journaled, Marked, Journal, Verified, OnlyGathers, OnlyCaches, SyncRun.State;
      ghost var c, q := State(), broker.State();
      LeftOffCases(c, m, choice);
      SeedingCrashes(c, q, m, choice);
      GatheringCrashes(c, q, m, choice);
      ok := SeedAll(m);
      CachesGather(c, State(), c, m);
      if !ok || (m.kind == DELETE && !policy.deletes && !choice.KeepLocal?) { return false; }
      ghost var s, seeded := State(), log;
      EnterRow(m);
      ghost var j, journaled := State(), log;
      GathersTwice(c, s, j, m);
      JournalPoint(s, q, m);
      ok := DownloadAll(m, s);
      GathersTwice(c, j, State(), m);
      if !ok { return; }
      ReadiedRow(c, m);
      Mark(m.id);
      StagedPoints(c, q, m, choice, old(log), seeded, journaled, log[..|log| - 1]);
      assert log == log[..|log| - 1] + [(State(), q)];
    }

    /** Records a version whose content is in place, and confirms it. */
    method Finish(m: Manifest, choice: Choice, policy: Policy, ghost c: Client, ghost start: seq<Point>, ghost staged: seq<Point>)
      returns (ok: bool)
      requires Sound() && m.id in inbox && State() == Settled(Readied(c, m), m, Stays(c, m, choice)) && !Journal(c, m, Applied)
      requires Stageable(c, broker.State(), m, choice, policy) && Grown(start, staged, CrashPoints(c, broker.State(), m, choice))
      requires log == staged + [(State(), broker.State())]
      modifies this`files, this`inbox, this`log, broker
      ensures Sound()
      ensures ok <==> Receipt(old(broker.State()), c.role, m.id, ManifestHash(m)).Done?
      ensures ok ==> State() == Received(c, m, choice) && broker.State() == ReceivedBy(c, old(broker.State()), m)
      ensures !ok ==> State() == Applying(c, m, choice) && broker.State() == old(broker.State())
      ensures ok ==> Grown(start, log, CrashPoints(c, old(broker.State()), m, choice))
    {
      hide Inv, CrashPoints, Grown, Readied, Confirmable, Receipt, Stageable, Stays, ReceivedBy, Settled, Accepted, Dropped, Received, Applying;
      hide Verified, Journal, SyncRun.State;
      ghost var q := broker.State();
      ReceivedIs(c, m, choice);
      StagedConfirms(c, q, m, choice, policy);
      Record(m);
      ok := Acknowledge(m);
      if ok { AppliedPoints(c, q, m, choice, start, staged); }
    }

    /** Puts the version in place, records it and confirms it, once it is staged. */
    method Install(m: Manifest, choice: Choice, policy: Policy, stays: bool, ghost c: Client, ghost start: seq<Point>) returns (ok: bool)
      requires Sound() && State() == Readied(c, m) && !Journal(c, m, Applied) && stays == Stays(c, m, choice)
      requires Stageable(c, broker.State(), m, choice, policy) && Grown(start, log, CrashPoints(c, broker.State(), m, choice))
      modifies this`tree, this`files, this`inbox, this`log, broker
      ensures Sound()
      ensures ok <==> Installable(c, old(broker.State()), m, choice, policy)
      ensures ok ==> State() == Received(c, m, choice) && broker.State() == ReceivedBy(c, old(broker.State()), m)
      ensures !ok ==> (State() == Readied(c, m) || State() == Applying(c, m, choice)) && broker.State() == old(broker.State())
      ensures ok ==> Grown(start, log, CrashPoints(c, old(broker.State()), m, choice))
      ensures m.kind == PUT || stays || !policy.recycle ==> NoneGone(old(tree), tree)
    {
      hide Inv, CrashPoints, Grown, Readied, Already, Receipt, Stageable, Rebuilds, Hashes, Journal, Stays, ReceivedBy, Settled, Received, Applying;
      hide Verified, NoneGone, SyncRun.State;
      ghost var staged := log;
      ReadiedRow(c, m);
      ok := Settle(m, stays, policy.recycle);
      if ok {
        ok := Finish(m, choice, policy, c, start, staged);
      }
    }

    /**
     Receives one version. It succeeds exactly when the checks, the blocks at hand and the broker allow it; it then ends
     in the specified state, and every state it has left on disk on the way is one a rerun recovers from. A refused reception
     has not touched the working file, unless only the receipt was refused.
     */
    method ReceiveOne(m: Manifest, choice: Choice, policy: Policy) returns (ok: bool)
      requires Sound()
      modifies this, broker
      ensures Sound() && outbox == old(outbox) && recovery == old(recovery)
      ensures ok <==> Succeeds(old(State()), old(broker.State()), m, choice, policy)
      ensures ok ==> State() == Received(old(State()), m, choice)
      ensures ok ==> broker.State() == ReceivedBy(old(State()), old(broker.State()), m)
      ensures ok ==> Grown(old(log), log, CrashPoints(old(State()), old(broker.State()), m, choice))
      ensures !ok ==> LeftOff(old(State()), State(), m, choice) && broker.State() == old(broker.State())
      ensures m.kind == DELETE && !policy.deletes && !choice.KeepLocal? && old(m.id in inbox ==> !inbox[m.id].phase.Applied?) ==>
                !ok && tree == old(tree) && files == old(files)
      ensures !(policy.deletes && policy.recycle) ==> old(tree).Keys <= tree.Keys
    {
      hide Inv, CrashPoints, Grown, Readied, Already, Acceptable, Confirmable, Receipt, Stageable, Installable, ReceivedBy, LeftOff, OnlyGathers, Verified, Succeeds, Applying, Dropped, SyncRun.State;
      ghost var c, q := State(), broker.State();
      SucceedsParts(c, q, m, choice, policy);
      LeftOffCases(c, m, choice);
      if m.id in inbox && inbox[m.id].phase == Applied {
        ok := Acknowledge(m);
        AcknowledgedPoints(c, q, m, choice, old(log));
      } else {
        ok := ReceiveNew(m, choice, policy);
      }
    }

    /** A version that is not applied yet: inspected, staged, installed. */
    method ReceiveNew(m: Manifest, choice: Choice, policy: Policy) returns (ok: bool)
      requires Sound() && !Journal(State(), m, Applied)
      modifies this, broker
      ensures Sound() && outbox == old(outbox) && recovery == old(recovery)
      ensures ok <==> Succeeds(old(State()), old(broker.State()), m, choice, policy)
      ensures ok ==> State() == Received(old(State()), m, choice)
      ensures ok ==> broker.State() == ReceivedBy(old(State()), old(broker.State()), m)
      ensures ok ==> Grown(old(log), log, CrashPoints(old(State()), old(broker.State()), m, choice))
      ensures !ok ==> LeftOff(old(State()), State(), m, choice) && broker.State() == old(broker.State())
      ensures m.kind == DELETE && !policy.deletes && !choice.KeepLocal? ==> !ok && tree == old(tree) && files == old(files)
      ensures !(policy.deletes && policy.recycle) ==> old(tree).Keys <= tree.Keys
    {
      hide Inv, CrashPoints, Grown, Readied, Already, Acceptable, Confirmable, Receipt, Stageable, Installable, ReceivedBy, LeftOff, OnlyGathers, Verified, Succeeds, Applying, Dropped, Journal, SyncRun.State;
      ghost var c, q := State(), broker.State();
      SucceedsParts(c, q, m, choice, policy);
      LeftOffCases(c, m, choice);
      var already;
      ok, already := Inspect(m, choice);
      if ok {
        ok := Stage(m, choice, policy);
      }
      if ok {
        ReadiedKept(c, m);
        ok := Install(m, choice, policy, already || choice.KeepLocal?, c, old(log));
      }
    }

    // -------------------------------------------------------------- everything pending

    /** Receives a list of versions in order, stopping at the first that fails. */
    method ReceiveList(ms: seq<Manifest>, policy: Policy, ghost s: System) returns (ok: bool, ghost t: System)
      requires Sound() && Within(s)
      modifies this, broker
      ensures Sound()
      ensures ok <==> Convergence.AllSucceed(s, role, ms, Nobody(|ms|), policy)
      ensures ok ==> t == Convergence.ReceiveAll(s, role, ms, Nobody(|ms|)) && Within(t)
      ensures !(policy.deletes && policy.recycle) ==> old(tree).Keys <= tree.Keys
    {
      hide Inv, Succeeds, Received, ReceivedBy, CrashPoints, Grown, Convergence.AllSucceed, Convergence.ReceiveAll;
      t := s;
      assert ms[0..] == ms;
      for i := 0 to |ms|
        invariant !(policy.deletes && policy.recycle) ==> old(tree).Keys <= tree.Keys
        invariant Sound() && Within(t)
        invariant Convergence.AllSucceed(s, role, ms, Nobody(|ms|), policy)
              <==> Convergence.AllSucceed(t, role, ms[i..], Nobody(|ms| - i), policy)
        invariant Convergence.ReceiveAll(s, role, ms, Nobody(|ms|)) == Convergence.ReceiveAll(t, role, ms[i..], Nobody(|ms| - i))
      {
        ReceiveNext(t, role, ms, i, policy);
        ok := ReceiveOne(ms[i], NoChoice, policy);
        if !ok { return; }
        t := Convergence.ReceiveOne(t, role, ms[i]);
      }
      NothingLeft(t, role, ms[|ms|..], policy);
      ok := true;
    }

    /** The inbox rows of a dataset, in no particular order. */
    method Rows(ds: Dataset) returns (ids: seq<JobId>)
      ensures ListsRows(inbox, ds, ids)
    {
      ids := [];
      var todo := set id | id in inbox && inbox[id].manifest.key.dataset == ds;
      ghost var all := todo;
      while todo != {}
        invariant todo <= all && forall i | 0 <= i < |ids| :: ids[i] in all && ids[i] !in todo
        invariant forall id | id in all :: id in todo || id in ids
        invariant forall i, j | 0 <= i < j < |ids| :: ids[i] != ids[j]
      {
        var id :| id in todo;
        ids, todo := ids + [id], todo - {id};
      }
    }

    /** The manifests that the broker answers to `pending`. */
    method Ask(ds: Dataset) returns (ms: seq<Manifest>)
      requires Inv(broker.State())
      ensures var ids := BrokerState.Pending(broker.State(), role, ds);
        (forall i | 0 <= i < |ids| :: ids[i] in broker.jobs) && ms == Convergence.Answered(broker.State(), ids)
    {
      OrderListed(broker.State());
      PendingKnown(broker.State(), role, ds);
      var ids := broker.Pending(role, ds);
      var jobs := broker.jobs;
      ms := seq(|ids|, i requires 0 <= i < |ids| => jobs[ids[i]].manifest);
    }

    /**
     Receives what an earlier session left in the inbox, then everything pending, exactly when each reception goes through.
     A device whose files are as recorded and every owed block at hand ends at the server's heads if and only if each row
     was in its turn and the device aligned; without explicit choices, if nothing of its own was committed unrecorded.
     */
    method ReceiveAll(ds: Dataset, policy: Policy, ghost s: System) returns (ok: bool, ghost ids: seq<JobId>)
      requires Sound() && Within(s)
      modifies this, broker
      ensures Sound() && ListsRows(old(inbox), ds, ids)
      ensures ok <==> SessionSucceeds(s, role, ds, ids, policy)
      ensures ok ==> Within(SessionEnd(s, role, ds, ids))
      ensures SessionReady(s, role, ds, Policy(true, policy.recycle)) ==>
                ((ok && Convergence.AtHeads(old(broker.State()), State(), ds))
                 <==> && InTurn(old(inbox), old(files), RowManifests(old(inbox), ids)) && Alignment.Aligned(s.q, role, s.clients[role], ds)
                      && (policy.deletes || Deletions.NoDeletionDue(s.q, role, s.clients[role], ds)))
      ensures SessionReady(s, role, ds, policy) && !s.clients[role].chose ==>
                ((ok && Convergence.AtHeads(old(broker.State()), State(), ds)) <==> Alignment.OutboxQuiet(s.q, s.clients[role], ds))
      ensures !(policy.deletes && policy.recycle) ==> old(tree).Keys <= tree.Keys
    {
      hide Inv, SessionReady, Convergence.AllSucceed, Convergence.ReceiveAll, Convergence.AtHeads, Alignment.OutboxQuiet, Alignment.Aligned, InTurn;
      hide BrokerState.Pending, Deletions.NoDeletionDue;
      var listed := Rows(ds);
      ids := listed;
      var rows := RowManifests(inbox, listed);
      if SessionReady(s, role, ds, Policy(true, policy.recycle)) { Deletions.SessionEitherWay(s, role, ds, ids, policy); }
      if SessionReady(s, role, ds, policy) && !s.clients[role].chose { OwnVersions.UnchosenSession(s, role, ds, ids, policy); }
      ghost var t;
      ok, t := ReceiveList(rows, policy, s);
      if ok {
        PendingKnown(broker.State(), role, ds);
        var ms := Ask(ds);
        ghost var e;
        ok, e := ReceiveList(ms, policy, t);
      }
    }

    // -------------------------------------------------------------- publishing

    /** Sends the packet that continues the broker's partial file. */
    method SendPacket(id: JobId, h: Hash, offset: nat, ghost c: Client, ghost q: Queue, ghost resets: nat, ghost before: seq<Point>)
      returns (ack: Ack)
      requires Putting(c, q, role, id, h, broker.State(), resets, before, log) && |Part(broker.State(), h)| == offset
      requires State() == c && h in cache && cache[h] == h.preimage
      modifies this`log, broker
      ensures ack.offset <= |h.preimage|
      ensures if ack.mismatch then resets == 0 && ack.offset == 0 else ack.offset == Min(offset + 128 * 1024, |h.preimage|)
      ensures if ack.offset == |h.preimage| then Uploading.Uploaded(c, q, h, broker.State(), before, log)
              else |Part(broker.State(), h)| == ack.offset
                   && Putting(c, q, role, id, h, broker.State(), if ack.mismatch then 1 else resets, before, log)
    {
      hide Inv, BrokerState.Upload, Appended, Putting, Uploading.Uploaded, Packet;
      ghost var q1 := broker.State();
      PuttingShort(c, q, role, id, h, q1, resets, before, log);
      PacketIs(q1, h);
      PacketSent(c, q, role, id, h, q1, resets, before, log);
      var packet := cache[h][offset..Min(offset + PACKET, |cache[h]|)];
      var reply := broker.Upload(role, id, h, Some(offset), packet);
      ack := reply.value;
      Answered(c, q, role, id, h, q1, resets, before, log, broker.State(), ack);
      Note();
    }

    /** Sends packets until the block is published; the broker may throw a wrong partial file away once. */
    method SendBlock(id: JobId, h: Hash, start: nat, ghost q: Queue)
      requires h in cache && cache[h] == h.preimage && start <= |h.preimage|
      requires if start == |h.preimage| then Uploading.Uploaded(State(), q, h, broker.State(), log, log)
               else |Part(broker.State(), h)| == start && Putting(State(), q, role, id, h, broker.State(), 0, log, log)
      modifies this`log, broker
      ensures Uploading.Uploaded(State(), q, h, broker.State(), old(log), log)
    {
      hide Putting, Uploading.Uploaded;
      ghost var c := State();
      var offset, resets := start, 0;
      while offset < |cache[h]|
        invariant h in cache && cache[h] == h.preimage && offset <= |h.preimage| && resets <= 1 && State() == c
        invariant if offset == |h.preimage| then Uploading.Uploaded(c, q, h, broker.State(), old(log), log)
                  else |Part(broker.State(), h)| == offset && Putting(c, q, role, id, h, broker.State(), resets, old(log), log)
        decreases 1 - resets, |h.preimage| - offset
      {
        var ack := SendPacket(id, h, offset, c, q, resets, old(log));
        offset := ack.offset;
        if ack.mismatch {
          resets := resets + 1;
          assert resets <= 1;   // the client gives up at the second reset, which never comes
        }
      }
    }

    /**
     Uploads one cached block. Whatever shorter partial file the broker starts from, rubbish included, the block ends
     verified and published after at most one reset; it is refused only when the cache or the broker refuses it.
     */
    method UploadBlock(id: JobId, h: Hash, total: nat) returns (ok: bool)
      requires Sound() && (h in broker.objects ==> broker.objects[h].size == total)
      modifies this`log, broker
      ensures Sound()
      ensures ok <==> h in cache && total == |h.preimage| && BrokerState.Upload(old(broker.State()), role, id, h, None, []).Done?
      ensures ok ==> broker.State() == Filled(old(broker.State()), {h})
      ensures !ok ==> broker.State() == old(broker.State()) && log == old(log)
      ensures ok && Part(old(broker.State()), h) <= h.preimage ==>
                Grown(old(log), log, PutPoints(State(), old(broker.State()), h))
    {
      hide Inv, BrokerState.Upload, Putting, Uploading.Uploaded, Filled, PutPoints, Grown, Writable, FilesTracked;
      ghost var q := broker.State();
      ok := Cached(h, total);
      if ok {
        FilesOf(q);
        Asked(q, role, id, h);
        var reply := broker.Upload(role, id, h, None, []);
        ok := reply.Granted?;
        if ok {
          Starts(State(), q, role, id, h, log, reply.value.offset);
          SendBlock(id, h, reply.value.offset, q);
          UploadedEnd(State(), q, h, broker.State(), old(log), log);
        }
      }
    }

    /** Uploads every block of a plan. */
    method UploadAll(id: JobId, needed: map<Hash, Object>) returns (ok: bool)
      requires Sound() && id in broker.jobs && broker.jobs[id].manifest.origin == role && broker.jobs[id].state != DELIVERED
      requires needed == PlanFor(broker.State(), id).needed
      modifies this`log, broker
      ensures Sound()
      ensures ok <==> Supplied(State(), needed)
      ensures ok ==> Planned(State(), old(broker.State()), needed, needed.Keys, broker.State(), old(log), log)
    {
      hide Inv, BrokerState.Upload, Filled, PutPoints, Grown, Part, PlanFor, Planned;
      ghost var c, q := State(), broker.State();
      ghost var done: set<Hash> := {};
      var todo := needed.Keys;
      PlanBegins(c, q, needed, log);
      while todo != {}
        invariant done == needed.Keys - todo && Sound() && State() == c
        invariant Planned(c, q, needed, done, broker.State(), old(log), log)
      {
        var h :| h in todo;
        PlanContinues(c, q, role, id, needed, done, h, broker.State(), old(log), log);
        ok := UploadBlock(id, h, needed[h].size);
        if !ok { return; }
        todo, done := todo - {h}, done + {h};
      }
      assert done == needed.Keys;
      PlannedSupplied(c, q, needed, broker.State(), old(log), log);
      ok := true;
    }

    /** The transaction that records a committed version and takes it off the outbox. */
    method Announce(m: Manifest)
      modifies this`files, this`outbox, this`log
      ensures State() == Announced(old(State()), m)
      ensures files == old(files)[m.key := m] && outbox == old(outbox) - {m.id}
      ensures log == old(log) + [(State(), broker.State())]
    {
      files, outbox := files[m.key := m], outbox - {m.id};
      Note();
    }

    /** Stages a version and uploads what the broker still needs of it. */
    method Stock(m: Manifest) returns (ok: bool)
      requires Sound()
      modifies this`log, broker
      ensures Sound() && State() == old(State())
      ensures var plan := BrokerState.Prepare(old(broker.State()), role, m);
        && (ok <==> plan.Done? && (plan.reply.state == STAGING ==> Supplied(State(), plan.reply.needed)))
        && (ok ==> broker.State() == if plan.reply.state == STAGING then Filled(plan.after, plan.reply.needed.Keys) else plan.after)
        && (ok && TrueParts(old(broker.State())) ==>
              Grown(old(log) + [(State(), plan.after)], log, PlanPoints(State(), plan.after, Wanting(plan.reply))))
    {
      hide Inv, BrokerState.Prepare, Filled, PlanPoints, Grown, PlanFor, Planned, SyncRun.State, Verified;
      ghost var c, q := State(), broker.State();
      var reply := broker.Prepare(role, m);
      if reply.Denied? { return false; }
      Prepared(q, role, m);
      ghost var q1 := broker.State();
      Note();
      GrownNone(log, PlanPoints(c, q1, Wanting(reply.value)));
      ok := true;
      if reply.value.state == STAGING {
        ghost var staged := log;
        ok := UploadAll(m.id, reply.value.needed);
        if ok { PlannedEnd(c, q1, reply.value.needed, broker.State(), staged, log); }
      }
    }

    /** Commits an uploaded version and records it. */
    method Conclude(m: Manifest) returns (ok: bool)
      requires Sound()
      modifies this`files, this`outbox, this`log, broker
      ensures Sound()
      ensures var o := BrokerState.Commit(old(broker.State()), role, m.id);
        && (ok <==> o.Done?)
        && (ok ==> State() == Announced(old(State()), m) && broker.State() == o.after)
        && (ok ==> log == old(log) + [(old(State()), o.after)] + [(State(), o.after)])
    {
      hide Inv, BrokerState.Commit;
      Committed(broker.State(), role, m.id);
      var reply := broker.Commit(role, m.id);
      ok := reply.Granted?;
      if ok {
        Note();
        Announce(m);
      }
    }

    /**
     Publishes a version of the outbox. It succeeds exactly when the broker admits and commits it and the cache supplies
     what the broker asks for; every state left on disk on the way is one from which publishing again ends the same.
     */
    method Publish(m: Manifest) returns (ok: bool)
      requires Sound()
      modifies this`files, this`outbox, this`log, broker
      ensures Sound()
      ensures ok <==> Publishes(old(State()), old(broker.State()), m)
      ensures ok ==> State() == Announced(old(State()), m) && broker.State() == PublishedBy(old(State()), old(broker.State()), m)
      ensures ok && TrueParts(old(broker.State())) ==>
                Grown(old(log), log, PublishPoints(old(State()), old(broker.State()), m))
    {
      hide Inv, BrokerState.Prepare, BrokerState.Commit, Filled, PlanPoints, PublishPoints, Grown, Publishes, PublishedBy, TrueParts, Supplied, Wanting, Verified, Announced, PlanFor, SyncRun.State;
      ghost var c, q := State(), broker.State();
      PublishParts(c, q, m);
      ok := Stock(m);
      if ok {
        ghost var uploaded := log;
        ok := Conclude(m);
        if ok && TrueParts(q) {
          PublishedPoints(c, q, m, old(log), old(log) + [(c, BrokerState.Prepare(q, role, m).after)], uploaded);
        }
      }
    }

    /** Uploads again what waiting recipients of an own version lack; committing it again changes nothing. */
    method Repair(id: JobId) returns (ok: bool)
      requires Sound()
      modifies this`log, broker
      ensures Sound() && State() == old(State())
      ensures ok <==> Fixes(State(), old(broker.State()), id)
      ensures ok ==> broker.State() == FixedBy(State(), old(broker.State()), id)
    {
      hide Inv, BrokerState.RepairPrepare, BrokerState.Commit, Filled, PlanFor, Planned;
      ghost var q := broker.State();
      var reply := broker.RepairPrepare(role, id);
      ok := reply.Granted?;
      if ok {
        Restocked(q, role, id);
        ghost var q1 := broker.State();
        Note();
        ghost var staged := log;
        ok := UploadAll(id, reply.value.needed);
        if ok {
          PlannedEnd(State(), q1, reply.value.needed, broker.State(), staged, log);
          CommitNothing(q1, reply.value.needed.Keys, role, id);
          var done := broker.Commit(role, id);
        }
      }
    }

    // -------------------------------------------------------------- scanning a file

    /** Caches a finished block and lists it. */
    method KeepChunk(block: Bytes, list: seq<Chunk>, ghost c: Client, ghost parts: seq<Bytes>) returns (longer: seq<Chunk>)
      requires Sound() && State() == Seeded(c, parts) && list == Listed(parts)
      modifies this`cache, this`log
      ensures Sound() && State() == Seeded(c, parts + [block]) && longer == Listed(parts + [block])
    {
      hide Inv, Seeded, Verified;
      SeededOne(c, parts, block);
      ListedMore(parts, block);
      CacheBlock(block);
      longer := list + [Chunk(Sha256(block), |block|)];
    }

    /** Runs the bytes of one read through the chunker; the block buffer holds what has come since the last cut. */
    method CutInput(gear: Chunker.Gear, chunker: Chunker.SyncChunker, buffer: array<Byte>, input: Bytes, used: nat, before: seq<Chunk>,
                    ghost c: Client, ghost s: Chunker.Split)
      returns (filled: nat, list: seq<Chunk>)
      requires Sound() && State() == Seeded(c, s.done) && before == Listed(s.done)
      requires buffer.Length == MAX_CHUNK && used == |s.block| < MAX_CHUNK && buffer[..used] == s.block
      requires chunker.Tracks(gear) && chunker.block == s.block
      modifies this`cache, this`log, chunker, buffer
      ensures Sound() && chunker.Tracks(gear)
      ensures var e := Chunker.FedAll(gear, s, input);
        && State() == Seeded(c, e.done) && list == Listed(e.done) && chunker.block == e.block
        && filled == |e.block| < MAX_CHUNK && buffer[..filled] == e.block
    {
      hide Inv, Seeded, Verified, Chunker.Cuts, Chunker.Unfinished, Chunker.Roll, Listed;
      filled, list := used, before;
      ghost var e := s;
      for i := 0 to |input|
        invariant e == Chunker.FedAll(gear, s, input[..i])
        invariant Sound() && State() == Seeded(c, e.done) && list == Listed(e.done)
        invariant chunker.Tracks(gear) && chunker.block == e.block
        invariant filled == |e.block| < MAX_CHUNK && buffer[..filled] == e.block
      {
        Chunker.FedNext(gear, s, input, i);
        buffer[filled] := input[i];
        filled := filled + 1;
        assert buffer[..filled] == e.block + [input[i]];
        var cut := chunker.Boundary(input[i], gear);
        if cut {
          list := KeepChunk(buffer[..filled], list, c, e.done);
          filled := 0;
        } else {
          Chunker.UnfinishedSize(gear, chunker.block);
        }
        e := Chunker.Fed(gear, e, input[i]);
      }
      assert input[..|input|] == input;
    }

    /** Cuts a file into cached and listed chunks, read by read; what follows the last cut is a chunk of its own. */
    method CutFile(gear: Chunker.Gear, packets: seq<Bytes>) returns (list: seq<Chunk>, data: Bytes)
      requires Sound()
      modifies this`cache, this`log
      ensures Sound() && data == Concat(packets)
      ensures State() == Seeded(old(State()), Chunker.Chunks(gear, data)) && list == Listed(Chunker.Chunks(gear, data))
    {
      hide Inv, Seeded, Verified, Chunker.Cuts, Chunker.Unfinished, Chunker.Roll, Listed, Chunker.FedAll, Concat;
      ghost var c := State();
      var chunker := new Chunker.SyncChunker();
      var buffer := new Byte[MAX_CHUNK];
      var filled := 0;
      list, data := [], [];
      ghost var s := Chunker.Split([], []);
      SeededNone(c);
      SnapshotStart(gear, packets);
      for i := 0 to |packets|
        invariant s == Chunker.FedAll(gear, Chunker.Split([], []), data) && data + Concat(packets[i..]) == Concat(packets)
        invariant Sound() && State() == Seeded(c, s.done) && list == Listed(s.done)
        invariant chunker.Tracks(gear) && chunker.block == s.block && fresh(chunker) && fresh(buffer)
        invariant filled == |s.block| < MAX_CHUNK && buffer[..filled] == s.block
      {
        NextRead(gear, data, packets, i);
        filled, list := CutInput(gear, chunker, buffer, packets[i], filled, list, c, s);
        s := Chunker.FedAll(gear, s, packets[i]);
        data := data + packets[i];
      }
      LastRead(data, packets);
      if filled > 0 {
        list := KeepChunk(buffer[..filled], list, c, s.done);
      }
    }

    /**
     Scans a file, however it is split into reads, and saves its version in the outbox. The version lists the chunks of the
     whole file, all of them cached.
     */
    method Snapshot(gear: Chunker.Gear, packets: seq<Bytes>, id: JobId, key: Key, parent: Option<JobId>) returns (m: Manifest)
      requires Sound()
      modifies this`cache, this`outbox, this`log
      ensures Sound()
      ensures m == Version(id, key, role, parent, gear, Concat(packets))
      ensures State() == Queued(Seeded(old(State()), Chunker.Chunks(gear, Concat(packets))), m)
      ensures Holding(State(), m)
      ensures var data := Concat(packets);
        && m.id == id && m.key == key && m.origin == role && m.parent == parent
        && m.kind == PUT && m.sha == Some(Sha256(data)) && m.size == |data|
      ensures outbox == old(outbox)[id := m] && old(cache).Keys <= cache.Keys
    {
      hide Inv, Verified, Chunker.Chunks;
      ghost var c := State();
      var list, data := CutFile(gear, packets);
      m := Manifest(id, key, role, parent, PUT, Some(Sha256(data)), |data|, list);
      outbox := outbox[id := m];
      Note();
      SnapshotHolds(c, gear, data, m);
    }

    // -------------------------------------------------------------- an explicit choice

    /** Copies the working file under its own hash, unless there is such a copy, and verifies the copy. */
    method KeepCopy(k: Key) returns (ok: bool)
      modifies this`recovery, this`chose, this`log
      ensures State() == Chooser(old(State()), k)
      ensures ok <==> CopyGood(State(), k)
      ensures k in tree ==>
                var h := Sha256(tree[k]);
                && (h, k.path) in recovery && (ok <==> Sha256(recovery[(h, k.path)]) == h)
                && recovery == if (h, k.path) in old(recovery) then old(recovery) else old(recovery)[(h, k.path) := tree[k]]
      ensures k !in tree ==> ok && recovery == old(recovery)
    {
      ok, chose := true, true;
      if k in tree {
        var h := Sha256(tree[k]);
        if (h, k.path) !in recovery {
          recovery := recovery[(h, k.path) := tree[k]];
        }
        ok := Sha256(recovery[(h, k.path)]) == h;
      }
      Note();
    }

    /** Receives versions of one file under a choice; with the server's side chosen, the accepted content follows them. */
    method ReceiveChosen(ms: seq<Manifest>, keep: bool, start: Option<Hash>, policy: Policy) returns (ok: bool)
      requires Sound()
      modifies this, broker
      ensures Sound() && outbox == old(outbox)
      ensures ok <==> ChoiceSucceeds(old(State()), old(broker.State()), ms, keep, start, policy)
      ensures ok ==> State() == Resolving(old(State()), ms, keep, start)
                     && broker.State() == ResolvingBy(old(State()), old(broker.State()), ms, keep, start)
      ensures !ok ==> StopsShort(old(State()), old(broker.State()), ms, keep, start, policy, State(), broker.State())
      ensures !(policy.deletes && policy.recycle) ==> old(tree).Keys <= tree.Keys
    {
      hide Inv, Succeeds, Received, ReceivedBy, CrashPoints, Grown, Resolving, ResolvingBy, ChoiceSucceeds, StopsShort, LeftOff;
      ghost var c, q := State(), broker.State();
      var accepted := start;
      assert ms[0..] == ms;
      for i := 0 to |ms|
        invariant !(policy.deletes && policy.recycle) ==> old(tree).Keys <= tree.Keys
        invariant Sound() && outbox == old(outbox)
        invariant ChoiceSucceeds(c, q, ms, keep, start, policy) <==> ChoiceSucceeds(State(), broker.State(), ms[i..], keep, accepted, policy)
        invariant Resolving(c, ms, keep, start) == Resolving(State(), ms[i..], keep, accepted)
        invariant ResolvingBy(c, q, ms, keep, start) == ResolvingBy(State(), broker.State(), ms[i..], keep, accepted)
        invariant forall c', q' :: StopsShort(State(), broker.State(), ms[i..], keep, accepted, policy, c', q')
                               ==> StopsShort(c, q, ms, keep, start, policy, c', q')
      {
        ghost var now, at, before := State(), broker.State(), accepted;
        var applied := ms[i].id in inbox && inbox[ms[i].id].phase == Applied;
        ResolvingNext(now, ms, i, keep, accepted);
        SucceedsNext(now, at, ms, i, keep, accepted, policy);
        ok := ReceiveOne(ms[i], if keep then KeepLocal(accepted) else UseServer(accepted), policy);
        if !ok {
          StopsNext(now, at, ms, i, keep, before, policy, State(), broker.State());
          return;
        }
        if !keep && !applied {
          accepted := ms[i].sha;
        }
        forall c', q' | StopsShort(State(), broker.State(), ms[i + 1..], keep, accepted, policy, c', q')
          ensures StopsShort(c, q, ms, keep, start, policy, c', q')
        {
          StopsNext(now, at, ms, i, keep, before, policy, c', q');
        }
      }
      NothingChosen(State(), ms[|ms|..], keep, accepted);
      ok := true;
    }

    /** The pending versions of one file. */
    method AskFile(k: Key) returns (ms: seq<Manifest>)
      requires Inv(broker.State())
      ensures ms == PendingOf(broker.State(), role, k)
      ensures forall i | 0 <= i < |ms| :: ms[i].key == k
    {
      hide Inv, BrokerState.Pending, Convergence.Answered;
      var all := Ask(k.dataset);
      ms := [];
      for i := 0 to |all|
        invariant ms == OfFile(all[..i], k)
        invariant forall j | 0 <= j < |ms| :: ms[j].key == k
      {
        assert all[..i + 1][..i] == all[..i];
        if all[i].key == k {
          ms := ms + [all[i]];
        }
      }
      assert all[..|all|] == all;
    }

    /** The outbox forgets a file. */
    method Forget(k: Key)
      modifies this`outbox, this`log
      ensures State() == WithoutOutbox(old(State()), k)
      ensures forall id :: id in outbox <==> id in old(outbox) && old(outbox)[id].key != k
      ensures forall id | id in outbox :: outbox[id] == old(outbox)[id]
    {
      outbox := map id | id in outbox && outbox[id].key != k :: outbox[id];
      Note();
    }

    /** The part of a choice that changes anything. */
    method Choose(k: Key, keep: bool, remote: JobId, policy: Policy) returns (ok: bool)
      requires Sound() && remote in broker.jobs && HeadOf(broker.State(), k) == Some(remote)
      modifies this, broker
      ensures Sound()
      ensures ok <==> Resolvable(old(State()), old(broker.State()), role, k, keep, Local(old(State()), k), remote, policy)
      ensures ok ==> ResolvedTo(old(State()), old(broker.State()), State(), broker.State(), role, k, keep, remote)
      ensures !ok ==> ResolutionStops(old(State()), old(broker.State()), State(), broker.State(), role, k, keep, remote, policy)
      ensures !(policy.deletes && policy.recycle) ==> old(tree).Keys <= tree.Keys
    {
      hide Inv, PendingOf, ChoiceSucceeds, StopsShort, Resolving, ResolvingBy, CopyGood, WithoutOutbox, Chooser, Verified, SyncRun.State;
      hide Resolvable, ResolvedTo, ResolutionStops;
      ghost var c, q := State(), broker.State();
      var head := broker.jobs[remote].manifest;
      var local := if k in tree then Some(Sha256(tree[k])) else None;
      ChooserLocal(c, k);
      ChoosesExactly(c, q, role, k, keep, remote, policy);
      ok := KeepCopy(k);
      if !ok { return; }
      var ms := AskFile(k);
      if ms != [] && ms[|ms| - 1].id != remote { return false; }
      ok := ReceiveChosen(ms + [head], keep, local, policy);
      if ok {
        Forget(k);
      }
    }

    /**
     Settles a file that changed on both sides: checks that the sides are as inspected, copies the local content, receives
     what is pending for the file and then the head, and forgets what the outbox held for the file. From a ready device it
     goes through exactly when the sides are as inspected and nothing older is pending before an acknowledged head. The head
     ends recorded; kept content is untouched, otherwise the file is the head's. Carried through or refused half way, it
     loses no content.
     */
    method Resolve(k: Key, keep: bool, expected: Option<Hash>, remote: JobId, policy: Policy, ghost s: System) returns (ok: bool)
      requires Sound() && Within(s)
      modifies this, broker
      ensures Sound()
      ensures ok <==> Resolvable(old(State()), old(broker.State()), role, k, keep, expected, remote, policy)
      ensures ok ==> ResolvedTo(old(State()), old(broker.State()), State(), broker.State(), role, k, keep, remote)
      ensures !ok ==> ResolutionStops(old(State()), old(broker.State()), State(), broker.State(), role, k, keep, remote, policy)
      ensures ok && Honest(old(broker.State())) ==> ResolvedSafely(old(State()), old(broker.State()), State(), role, k, keep, remote)
      ensures Honest(old(broker.State())) ==>
                State() in {old(State()), Chooser(old(State()), k)}
                || NothingLost(old(State()), old(broker.State()), State(), role, k, keep, remote, policy)
      ensures !(policy.deletes && policy.recycle) ==> old(tree).Keys <= tree.Keys
      ensures GoingThrough.ChoiceReady(s, role, k, keep, policy) ==>
                (ok <==> GoingThrough.AsInspected(old(State()), old(broker.State()), role, k, expected, remote))
    {
      hide Inv, PendingOf, Resolvable, ResolvedTo, ResolutionStops, ResolvedSafely, Honest, NothingLost, Chooser, SyncRun.State;
      hide GoingThrough.ChoiceReady, GoingThrough.AsInspected;
      ghost var c, q := State(), broker.State();
      var local := if k in tree then Some(Sha256(tree[k])) else None;
      HeadKnown(q, k);
      if GoingThrough.ChoiceReady(s, role, k, keep, policy) { GoingThrough.ChoiceGoesThrough(s, role, k, keep, expected, remote, policy); }
      if local != expected || k !in broker.heads || broker.heads[k] != remote {
        ChoiceRefused(c, q, role, k, keep, expected, remote, policy);
        return false;
      }
      ok := Choose(k, keep, remote, policy);
      if Honest(q) {
        if ok {
          ResolvedEnds(c, q, State(), broker.State(), role, k, keep, expected, remote, policy);
        } else {
          StopsSafely(c, q, State(), broker.State(), role, k, keep, remote, policy);
        }
      }
    }
  }
}
