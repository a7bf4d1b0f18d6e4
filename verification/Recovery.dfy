/** A session that lost power can be run again: it ends where an uninterrupted one would have ended. */
module Recovery {
  import opened Base
  import opened BrokerState
  import opened BrokerInvariants
  import opened BrokerGuarantees
  import opened ClientState
  import opened Receiving

  // ---------------------------------------------------------------- cutting what was put together

  lemma {:induction false} SlicesOfBlocks(chunks: seq<Chunk>)
    requires forall i | 0 <= i < |chunks| :: 0 < chunks[i].size == |chunks[i].hash.preimage| <= MAX_CHUNK
    ensures Recuts(Blocks(chunks), chunks)
    ensures forall i | 0 <= i < |chunks| :: Slices(Blocks(chunks), chunks)[i] == chunks[i].hash.preimage
  {
    if chunks != [] {
      var data := Blocks(chunks);
      SlicesOfBlocks(chunks[1..]);
      assert data[..chunks[0].size] == chunks[0].hash.preimage;
      assert data[chunks[0].size..] == Blocks(chunks[1..]);
      forall i | 0 <= i < |chunks|
        ensures i < |Slices(data, chunks)| && Slices(data, chunks)[i] == chunks[i].hash.preimage
      {
        if i > 0 {
          assert Slices(data, chunks)[i] == Slices(Blocks(chunks[1..]), chunks[1..])[i - 1];
        }
      }
    }
  }

  // ---------------------------------------------------------------- the staged state in one expression

  function SeedHashes(c: Client, m: Manifest): set<Hash> {
    set i | 0 <= i < |Seeds(c, m)| :: Sha256(Seeds(c, m)[i])
  }

  /** Everything cached by the time the row is marked Ready. */
  function ReadyCache(c: Client, m: Manifest): set<Hash> {
    c.cache + SeedHashes(c, m) + Hashes(m.chunks)
  }

  function ReadyPartial(c: Client, m: Manifest): map<Hash, Bytes> {
    c.partial - (Hashes(m.chunks) - (c.cache + SeedHashes(c, m)))
  }

  function ReadyRow(c: Client, m: Manifest): Row {
    if m.id in c.inbox then c.inbox[m.id].(phase := Ready) else Row(m, Ready)
  }

  lemma MarkedForm(c: Client, m: Manifest)
    ensures Marked(Journaled(c, m), m.id) == c.(inbox := c.inbox[m.id := ReadyRow(c, m)])
  {
  }

  lemma ReadiedForm(c: Client, m: Manifest)
    ensures Readied(c, m)
         == c.(cache := ReadyCache(c, m), partial := ReadyPartial(c, m), inbox := c.inbox[m.id := ReadyRow(c, m)])
  {
    MarkedForm(c, m);
    hide Seeds;
    var s := Seeded(c, Seeds(c, m));
    assert s.cache == c.cache + SeedHashes(c, m);
  }

  /** Two states that differ only in cached blocks, partial files and the phase of this row stage alike. */
  lemma ReadiedAlike(c: Client, c': Client, m: Manifest)
    requires c' == c.(cache := c'.cache, partial := c'.partial, inbox := c'.inbox)
    requires c'.inbox[m.id := ReadyRow(c, m)] == c.inbox[m.id := ReadyRow(c, m)]
    requires ReadyRow(c', m) == ReadyRow(c, m)
    requires ReadyCache(c', m) == ReadyCache(c, m)
    requires ReadyPartial(c', m) == ReadyPartial(c, m)
    ensures Readied(c', m) == Readied(c, m)
  {
    ReadiedForm(c, m);
    ReadiedForm(c', m);
  }

  /** What a version's seeds are does not depend on cache, partial files or journal. */
  lemma SeedsAlike(c: Client, c': Client, m: Manifest)
    requires c'.tree == c.tree && c'.files == c.files
    ensures Seeds(c', m) == Seeds(c, m) && SeedHashes(c', m) == SeedHashes(c, m)
    ensures SeedsMatch(c', m) == SeedsMatch(c, m) && Adopted(c', m) == Adopted(c, m)
  {
  }

  // ---------------------------------------------------------------- crashes before the working file changes

  predicate BeforeSettling(p: Crash) {
    p.Seeding? || p.Gathering? || p.Fetching? || p.Marking?
  }

  /** The row of an interrupted session: as it was, or created, or marked. */
  predicate RowAdvanced(c: Client, c': Client, m: Manifest) {
    && c'.inbox.Keys <= c.inbox.Keys + {m.id} && c.inbox.Keys <= c'.inbox.Keys
    && (forall id | id in c.inbox && id != m.id :: c'.inbox[id] == c.inbox[id])
    && (Journal(c, m, Ready) ==> Journal(c', m, Ready))
    && (m.id in c'.inbox ==> !c'.inbox[m.id].phase.Applied? && c'.inbox[m.id].(phase := Ready) == ReadyRow(c, m))
  }

  lemma RowAdvances(c: Client, m: Manifest, choice: Choice, p: Crash)
    requires Possible(c, m, p) && BeforeSettling(p)
    ensures var c' := Interrupted(c, m, choice, p);
      RowAdvanced(c, c', m) && c' == c.(cache := c'.cache, partial := c'.partial, inbox := c'.inbox)
    ensures p.Marking? ==> Journal(Interrupted(c, m, choice, p), m, Ready)
  {
    hide Seeds, Hashes, Seeded, Fetched, Journaled, Readied, RowAdvanced;
    match p
    case Marking => MarkedRow(c, m);
    case Seeding(n) => SeededRow(c, m, Seeds(c, m)[..n]);
    case Gathering(n) => GatheredRow(c, m, n);
    case Fetching(n, bytes) =>
      GatheredRow(c, m, n);
      PartialRow(c, Fetched(Journaled(Seeded(c, Seeds(c, m)), m), m.chunks[..n]), m, m.chunks[n].hash, bytes);
  }

  lemma MarkedRow(c: Client, m: Manifest)
    requires !Journal(c, m, Applied)
    ensures var r := Readied(c, m);
      RowAdvanced(c, r, m) && r == c.(cache := r.cache, partial := r.partial, inbox := r.inbox) && Journal(r, m, Ready)
  {
    hide Seeds, Hashes, Readied, SeedHashes;
    ReadiedForm(c, m);
  }

  lemma SeededRow(c: Client, m: Manifest, blocks: seq<Bytes>)
    requires !Journal(c, m, Applied)
    ensures var s := Seeded(c, blocks); RowAdvanced(c, s, m) && s == c.(cache := s.cache, partial := s.partial, inbox := s.inbox)
  {
  }

  lemma PartialRow(c: Client, f: Client, m: Manifest, h: Hash, n: nat)
    requires RowAdvanced(c, f, m) && f == c.(cache := f.cache, partial := f.partial, inbox := f.inbox) && n <= |h.preimage|
    ensures var w := WithPartial(f, h, n);
      RowAdvanced(c, w, m) && w == c.(cache := w.cache, partial := w.partial, inbox := w.inbox)
  {
  }

  lemma GatheredRow(c: Client, m: Manifest, n: nat)
    requires n <= |m.chunks| && !Journal(c, m, Applied)
    ensures var f := Fetched(Journaled(Seeded(c, Seeds(c, m)), m), m.chunks[..n]);
      RowAdvanced(c, f, m) && f == c.(cache := f.cache, partial := f.partial, inbox := f.inbox)
  {
    hide Seeds, Hashes;
  }

  lemma CacheAdvances(c: Client, m: Manifest, choice: Choice, p: Crash)
    requires Possible(c, m, p) && BeforeSettling(p)
    ensures var c' := Interrupted(c, m, choice, p);
      c.cache <= c'.cache && ReadyCache(c', m) == ReadyCache(c, m) && ReadyPartial(c', m) == ReadyPartial(c, m)
  {
    var c' := Interrupted(c, m, choice, p);
    RowAdvances(c, m, choice, p);
    SeedsAlike(c, c', m);
    match p
    case Seeding(n) => SeedingCache(c, m, n);
    case Gathering(n) => GatheringCache(c, m, n);
    case Fetching(n, bytes) => FetchingCache(c, m, choice, n, bytes);
    case Marking =>
      ReadiedForm(c, m);
      assert Hashes(m.chunks) - (c'.cache + SeedHashes(c', m)) == {};
  }

  lemma SeedingCache(c: Client, m: Manifest, n: nat)
    requires n <= |Seeds(c, m)|
    ensures var c' := Seeded(c, Seeds(c, m)[..n]);
      c.cache <= c'.cache && ReadyCache(c', m) == ReadyCache(c, m) && ReadyPartial(c', m) == ReadyPartial(c, m)
  {
    var c' := Seeded(c, Seeds(c, m)[..n]);
    SeedsAlike(c, c', m);
    SomeSeeds(c, m, n);
    hide Seeds;
    assert c'.cache + SeedHashes(c', m) == c.cache + SeedHashes(c, m);
  }

  lemma GatheringCache(c: Client, m: Manifest, n: nat)
    requires n <= |m.chunks|
    ensures var c' := Fetched(Journaled(Seeded(c, Seeds(c, m)), m), m.chunks[..n]);
      c.cache <= c'.cache && ReadyCache(c', m) == ReadyCache(c, m) && ReadyPartial(c', m) == ReadyPartial(c, m)
  {
    var c' := Fetched(Journaled(Seeded(c, Seeds(c, m)), m), m.chunks[..n]);
    SeedsAlike(c, c', m);
    FewerHashes(m.chunks, n);
    hide Seeds, Hashes;
    var held := c.cache + SeedHashes(c, m);
    PartialGather(c.partial, Hashes(m.chunks), Hashes(m.chunks[..n]), held);
    assert c'.cache == held + Hashes(m.chunks[..n]);
    assert c'.cache + SeedHashes(c', m) == held + Hashes(m.chunks[..n]);
  }

  lemma FewerHashes(chunks: seq<Chunk>, n: nat)
    requires n <= |chunks|
    ensures Hashes(chunks[..n]) <= Hashes(chunks)
  {
  }

  lemma PartialGather(partial: map<Hash, Bytes>, all: set<Hash>, done: set<Hash>, held: set<Hash>)
    requires done <= all
    ensures partial - (done - held) - (all - (held + done)) == partial - (all - held)
  {
  }

  lemma FetchingCache(c: Client, m: Manifest, choice: Choice, n: nat, bytes: nat)
    requires Possible(c, m, Fetching(n, bytes))
    ensures var c' := Interrupted(c, m, choice, Fetching(n, bytes));
      c.cache <= c'.cache && ReadyCache(c', m) == ReadyCache(c, m) && ReadyPartial(c', m) == ReadyPartial(c, m)
  {
    var c' := Interrupted(c, m, choice, Fetching(n, bytes));
    SeedsAlike(c, c', m);
    SomeHashes(m.chunks, n);
    hide Seeds, Hashes;
    var held := c.cache + SeedHashes(c, m);
    PartialFetch(c.partial, Hashes(m.chunks), Hashes(m.chunks[..n]), held, m.chunks[n].hash, m.chunks[n].hash.preimage[..bytes]);
    assert c'.cache == held + Hashes(m.chunks[..n]);
    assert c'.cache + SeedHashes(c', m) == held + Hashes(m.chunks[..n]);
  }

  lemma SomeSeeds(c: Client, m: Manifest, n: nat)
    requires n <= |Seeds(c, m)|
    ensures (set i | 0 <= i < n :: Sha256(Seeds(c, m)[..n][i])) <= SeedHashes(c, m)
  {
  }

  lemma SomeHashes(chunks: seq<Chunk>, n: nat)
    requires n < |chunks|
    ensures Hashes(chunks[..n]) <= Hashes(chunks) && chunks[n].hash in Hashes(chunks)
  {
  }

  lemma PartialFetch(partial: map<Hash, Bytes>, all: set<Hash>, done: set<Hash>, held: set<Hash>, h: Hash, part: Bytes)
    requires done <= all && h in all && h !in held && h !in done
    ensures (partial - (done - held))[h := part] - (all - (held + done)) == partial - (all - held)
  {
  }

  /** A broker that other devices used in the meantime still serves what it served of the blocks the device lacks. */
  predicate StillServes(q: Queue, q': Queue, c: Client, m: Manifest) {
    && (forall i | 0 <= i < |m.chunks| && m.chunks[i].hash !in c.cache && Served(q, m.id, m.chunks[i].hash) ::
          Served(q', m.id, m.chunks[i].hash) && q'.chunks[m.chunks[i].hash] == q.chunks[m.chunks[i].hash])
    && Receipt(q', c.role, m.id, ManifestHash(m)).Done?
  }

  lemma StillFetchable(c: Client, c': Client, q: Queue, q': Queue, id: JobId, chunk: Chunk)
    requires Fetchable(c, q, id, chunk) && c.cache <= c'.cache
    requires chunk.hash in c'.cache || PartOf(c, chunk.hash) == PartOf(c', chunk.hash)
             || PartOf(c, chunk.hash) <= PartOf(c', chunk.hash) <= chunk.hash.preimage
    requires chunk.hash !in c.cache && Served(q, id, chunk.hash) ==> Served(q', id, chunk.hash) && q'.chunks[chunk.hash] == q.chunks[chunk.hash]
    ensures Fetchable(c', q', id, chunk)
  {
    assert PartOf(c, chunk.hash) == chunk.hash.preimage && PartOf(c, chunk.hash) <= PartOf(c', chunk.hash) <= chunk.hash.preimage
      ==> PartOf(c', chunk.hash) == chunk.hash.preimage;
  }

  lemma PartAdvances(c: Client, m: Manifest, choice: Choice, p: Crash, i: nat)
    requires Possible(c, m, p) && BeforeSettling(p) && i < |m.chunks|
    requires PartOf(c, m.chunks[i].hash) <= m.chunks[i].hash.preimage || m.chunks[i].hash in Seeded(c, Seeds(c, m)).cache
    ensures var c' := Seeded(Interrupted(c, m, choice, p), Seeds(c, m)); var h := m.chunks[i].hash;
      h in c'.cache || PartOf(c, h) == PartOf(c', h) || PartOf(c, h) <= PartOf(c', h) <= h.preimage
  {
    hide Seeds;
    SomeHash(m.chunks, i);
    match p
    case Marking => ReadiedForm(c, m);
    case _ =>
  }

  lemma SomeHash(chunks: seq<Chunk>, i: nat)
    requires i < |chunks|
    ensures chunks[i].hash in Hashes(chunks)
  {
  }

  lemma StillReachable(c: Client, q: Queue, q': Queue, m: Manifest, choice: Choice, p: Crash)
    requires Possible(c, m, p) && BeforeSettling(p) && Reachable(Seeded(c, Seeds(c, m)), q, m) && StillServes(q, q', c, m)
    ensures Reachable(Seeded(Interrupted(c, m, choice, p), Seeds(c, m)), q', m)
  {
    var s := Seeded(c, Seeds(c, m));
    var s' := Seeded(Interrupted(c, m, choice, p), Seeds(c, m));
    CacheAdvances(c, m, choice, p);
    forall i | 0 <= i < |m.chunks|
      ensures Fetchable(s', q', m.id, m.chunks[i])
    {
      assert Fetchable(s, q, m.id, m.chunks[i]);
      PartAdvances(c, m, choice, p, i);
      StillFetchable(s, s', q, q', m.id, m.chunks[i]);
    }
  }

  lemma RecoversBefore(c: Client, q: Queue, m: Manifest, choice: Choice, policy: Policy, p: Crash, q': Queue)
    requires Succeeds(c, q, m, choice, policy) && ValidManifest(m) && Possible(c, m, p) && BeforeSettling(p) && StillServes(q, q', c, m)
    ensures var c' := Interrupted(c, m, choice, p);
      && c'.tree == c.tree && c'.files == c.files
      && Succeeds(c', q', m, choice, policy) && Received(c', m, choice) == Received(c, m, choice)
  {
    var c' := Interrupted(c, m, choice, p);
    RowAdvances(c, m, choice, p);
    CacheAdvances(c, m, choice, p);
    SeedsAlike(c, c', m);
    StillReachable(c, q, q', m, choice, p);
    RowSame(c, c', m);
    ReadiedAlike(c, c', m);
    hide Seeds, Reachable, SeedsMatch, Receipt, Interrupted, Seeded, Readied, RowAdvanced, Possible, Rebuilds;
    assert !Journal(c, m, Applied) by { NotApplied(c, m, p); }
    assert !Journal(c', m, Applied) by { NotAppliedYet(c, c', m); }
    assert m.kind == PUT ==> m.sha.Some?;
    hide ReadyRow, ReadyCache, ReadyPartial, ValidManifest;
    assert Already(c, m) ==> Already(c', m) by { ReadyStays(c, c', m); }
    SettledSame(c, c', m, choice);
    SucceedsAgain(c, c', q, q', m, choice, policy);
  }

  lemma NotApplied(c: Client, m: Manifest, p: Crash)
    requires Possible(c, m, p) && BeforeSettling(p)
    ensures !Journal(c, m, Applied)
  {
  }

  lemma NotAppliedYet(c: Client, c': Client, m: Manifest)
    requires RowAdvanced(c, c', m)
    ensures !Journal(c', m, Applied)
  {
  }

  lemma ReadyStays(c: Client, c': Client, m: Manifest)
    requires RowAdvanced(c, c', m) && c'.tree == c.tree
    ensures Already(c, m) ==> Already(c', m)
  {
  }

  lemma SucceedsAgain(c: Client, c': Client, q: Queue, q': Queue, m: Manifest, choice: Choice, policy: Policy)
    requires Succeeds(c, q, m, choice, policy) && !Journal(c, m, Applied) && !Journal(c', m, Applied)
    requires c'.tree == c.tree && c'.files == c.files && c'.role == c.role && (Already(c, m) ==> Already(c', m))
    requires SeedsMatch(c', m) && Reachable(Seeded(c', Seeds(c', m)), q', m) && Receipt(q', c.role, m.id, ManifestHash(m)).Done?
    ensures Succeeds(c', q', m, choice, policy)
  {
    hide Seeds, Reachable, SeedsMatch, Receipt, Seeded, Rebuilds, Journal, Already;
  }

  lemma RowSame(c: Client, c': Client, m: Manifest)
    requires RowAdvanced(c, c', m)
    ensures ReadyRow(c', m) == ReadyRow(c, m)
    ensures c'.inbox[m.id := ReadyRow(c, m)] == c.inbox[m.id := ReadyRow(c, m)]
  {
  }

  /** Marking the row can only make a deletion of an absent file count as done already. */
  lemma SettledSame(c: Client, c': Client, m: Manifest, choice: Choice)
    requires c'.tree == c.tree && c'.files == c.files && Readied(c', m) == Readied(c, m)
    requires Already(c, m) ==> Already(c', m)
    requires m.kind == PUT ==> m.sha.Some?
    ensures Settled(Readied(c', m), m, Stays(c', m, choice)) == Settled(Readied(c, m), m, Stays(c, m, choice))
  {
    ReadiedForm(c, m);
    hide Readied;
    if Already(c', m) && !Already(c, m) {
      assert m.key !in c.tree && m.kind == DELETE;
      assert c.tree - {m.key} == c.tree;
    }
  }

  // ---------------------------------------------------------------- crashes after the working file changed

  /** Seeding caches the blocks of the version and of the recorded one, as far as the working file holds their content. */
  lemma SeedsOf(c: Client, m: Manifest)
    requires SeedsMatch(c, m)
    ensures SeedHashes(c, m) == (if Adopted(c, m) then Hashes(m.chunks) else {})
                              + (if AtBase(c, m.key) then Hashes(c.files[m.key].chunks) else {})
  {
    var a := if Adopted(c, m) then Slices(c.tree[m.key], m.chunks) else [];
    var b := if AtBase(c, m.key) then Slices(c.tree[m.key], c.files[m.key].chunks) else [];
    assert Seeds(c, m) == a + b;
    SumHashes(a, b);
    if Adopted(c, m) { CutHashes(c.tree[m.key], m.chunks); }
    if AtBase(c, m.key) { CutHashes(c.tree[m.key], c.files[m.key].chunks); }
  }

  lemma SumHashes(a: seq<Bytes>, b: seq<Bytes>)
    ensures (set i | 0 <= i < |a + b| :: Sha256((a + b)[i]))
         == (set i | 0 <= i < |a| :: Sha256(a[i])) + (set i | 0 <= i < |b| :: Sha256(b[i]))
  {
    assert (forall i | 0 <= i < |a| :: (a + b)[i] == a[i]) && forall i | 0 <= i < |b| :: (a + b)[|a| + i] == b[i];
  }

  lemma CutHashes(data: Bytes, chunks: seq<Chunk>)
    requires Recuts(data, chunks)
    ensures (set i | 0 <= i < |Slices(data, chunks)| :: Sha256(Slices(data, chunks)[i])) == Hashes(chunks)
  {
    hide Slices;
  }

  /** What the file holds once it has the version's content: the version's blocks, and the recorded version's if that
      has the same content. */
  lemma SettledAlready(c: Client, m: Manifest)
    requires ValidManifest(m) && !Already(c, m)
    requires m.kind == PUT ==> Rebuilds(m)
    requires forall i | 0 <= i < |m.chunks| :: m.chunks[i].size == |m.chunks[i].hash.preimage|
    requires m.key in c.files && c.files[m.key].sha == m.sha ==> m.sha == None || Truthful(c.files[m.key])
    ensures var c' := Replaced(Readied(c, m), m);
      && Already(c', m) && SeedsMatch(c', m) && Local(c', m.key) == m.sha
      && (AtBase(c', m.key) <==> m.sha.Some? && m.key in c.files && c.files[m.key].sha == m.sha)
  {
    var c' := Replaced(Readied(c, m), m);
    ReadiedReady(c, m);
    hide Readied, Recuts;
    if m.kind == PUT {
      SlicesOfBlocks(m.chunks);
      assert c'.tree[m.key] == Blocks(m.chunks);
      if AtBase(c', m.key) {
        var r := c.files[m.key];
        SameContent(m, r);
        SlicesOfBlocks(r.chunks);
      }
    } else {
      assert Journal(c', m, Ready);
    }
  }

  lemma SameContent(m: Manifest, r: Manifest)
    requires Rebuilds(m) && Truthful(r) && r.sha == m.sha
    ensures Blocks(r.chunks) == Blocks(m.chunks)
    ensures forall i | 0 <= i < |r.chunks| :: 0 < r.chunks[i].size == |r.chunks[i].hash.preimage| <= MAX_CHUNK
  {
  }

  lemma ReadiedReady(c: Client, m: Manifest)
    ensures Journal(Readied(c, m), m, Ready) && Hashes(m.chunks) <= Readied(c, m).cache
    ensures Readied(c, m).tree == c.tree && Readied(c, m).files == c.files && Readied(c, m).role == c.role
  {
    ReadiedForm(c, m);
  }

  /** Staging a version whose row is Ready and whose blocks are cached only caches its seeds. */
  lemma ReadiedAgain(c: Client, m: Manifest)
    requires Journal(c, m, Ready) && Hashes(m.chunks) <= c.cache
    ensures Readied(c, m) == c.(cache := c.cache + SeedHashes(c, m))
  {
    ReadiedForm(c, m);
    hide Readied, SeedHashes, Hashes;
    assert ReadyCache(c, m) == c.cache + SeedHashes(c, m);
    assert Hashes(m.chunks) - (c.cache + SeedHashes(c, m)) == {};
    assert ReadyPartial(c, m) == c.partial;
    assert c.inbox[m.id := ReadyRow(c, m)] == c.inbox;
  }

  lemma SizesRight(c: Client, q: Queue, m: Manifest)
    requires Reachable(c, q, m)
    ensures forall i | 0 <= i < |m.chunks| :: m.chunks[i].size == |m.chunks[i].hash.preimage| <= MAX_CHUNK
  {
  }

  lemma CachedReachable(c: Client, q: Queue, m: Manifest)
    requires Hashes(m.chunks) <= c.cache
    requires forall i | 0 <= i < |m.chunks| :: m.chunks[i].size == |m.chunks[i].hash.preimage| <= MAX_CHUNK
    ensures Reachable(c, q, m)
  {
    forall i | 0 <= i < |m.chunks|
      ensures Fetchable(c, q, m.id, m.chunks[i])
    {
      SomeHash(m.chunks, i);
    }
  }

  /** A Ready row whose file is already in place goes through; before the recording it only caches the seeds. */
  lemma InPlace(c: Client, q: Queue, m: Manifest, choice: Choice, policy: Policy)
    requires Journal(c, m, Ready) && Already(c, m) && SeedsMatch(c, m) && Acceptable(c, m, choice)
    requires Hashes(m.chunks) <= c.cache && (m.kind == DELETE ==> policy.deletes || choice.KeepLocal?)
    requires forall i | 0 <= i < |m.chunks| :: m.chunks[i].size == |m.chunks[i].hash.preimage| <= MAX_CHUNK
    requires Receipt(q, c.role, m.id, ManifestHash(m)).Done?
    ensures Succeeds(c, q, m, choice, policy)
    ensures Received(c, m, choice) == Dropped(Accepted(c.(cache := c.cache + SeedHashes(c, m)), m), m.id)
  {
    ReadiedAgain(c, m);
    CachedReachable(Seeded(c, Seeds(c, m)), q, m);
    hide Readied, Seeds, SeedsMatch, Receipt, Reachable, Already, SeedHashes, Hashes, Acceptable;
  }

  /** A choice for the server's side is made afresh on what the file holds now. */
  function Again(c: Client, m: Manifest, choice: Choice): Choice {
    if choice.UseServer? then UseServer(Local(c, m.key)) else choice
  }

  /** The recorded version has the content of the received one, cut differently. */
  predicate CutOtherwise(c: Client, m: Manifest) {
    m.key in c.files && m.sha.Some? && c.files[m.key].sha == m.sha && !(Hashes(c.files[m.key].chunks) <= Hashes(m.chunks))
  }

  /** The same end state; only where the recorded version holds the same content cut differently may its blocks be cached
      besides. */
  predicate SameEnd(c: Client, m: Manifest, choice: Choice, end: Client, other: Client) {
    || other == end
    || (choice.UseServer? && CutOtherwise(c, m) && other == end.(cache := end.cache + Hashes(c.files[m.key].chunks)))
  }

  lemma RecoversReplaced(c: Client, q: Queue, m: Manifest, choice: Choice, policy: Policy, q': Queue)
    requires Succeeds(c, q, m, choice, policy) && ValidManifest(m) && !Journal(c, m, Applied) && !Already(c, m) && !choice.KeepLocal?
    requires choice.UseServer? && m.key in c.files ==> Truthful(c.files[m.key])
    requires Receipt(q', c.role, m.id, ManifestHash(m)).Done?
    ensures var c' := Replaced(Readied(c, m), m);
      && Succeeds(c', q', m, Again(c', m, choice), policy)
      && SameEnd(c, m, choice, Received(c, m, choice), Received(c', m, Again(c', m, choice)))
  {
    hide Readied, Seeds, Receipt, Served, Hashes, Reachable, Fetchable, SeedsMatch, SeedHashes, Rebuilds, Blocks, Truthful;
    var c' := Replaced(Readied(c, m), m);
    SizesRight(Seeded(c, Seeds(c, m)), q, m);
    if choice.NoChoice? { BaseDiffers(c, q, m, choice, policy); }
    SettledAlready(c, m);
    ReadiedReady(c, m);
    SeedsOf(c', m);
    hide ValidManifest, Already, Matches;
    assert Acceptable(c', m, Again(c', m, choice));
    InPlace(c', q', m, Again(c', m, choice), policy);
    ReplacedEnd(c, c', m, choice);
  }

  /** Without a choice the content that is replaced is the recorded version's, so the version's own differs from it. */
  lemma BaseDiffers(c: Client, q: Queue, m: Manifest, choice: Choice, policy: Policy)
    requires Succeeds(c, q, m, choice, policy) && ValidManifest(m) && !Journal(c, m, Applied) && !Already(c, m) && choice.NoChoice?
    ensures m.key in c.files && c.files[m.key].sha == m.sha ==> m.sha == None
  {
    hide Seeds, Receipt, Reachable, SeedsMatch, Blocks;
    if m.key in c.files && c.files[m.key].sha == m.sha && m.sha.Some? {
      assert false;
    }
  }

  lemma ReplacedEnd(c: Client, c': Client, m: Manifest, choice: Choice)
    requires !Journal(c, m, Applied) && !Stays(c, m, choice) && c' == Replaced(Readied(c, m), m) && Hashes(m.chunks) <= c'.cache
    requires SeedHashes(c', m) <= Hashes(m.chunks)
             || (&& choice.UseServer? && m.sha.Some? && m.key in c.files && c.files[m.key].sha == m.sha
                 && SeedHashes(c', m) + Hashes(m.chunks) == Hashes(m.chunks) + Hashes(c.files[m.key].chunks))
    ensures SameEnd(c, m, choice, Received(c, m, choice), Dropped(Accepted(c'.(cache := c'.cache + SeedHashes(c', m)), m), m.id))
  {
    ReadiedReady(c, m);
    hide Readied, SeedHashes, Hashes, Already, Blocks;
    if SeedHashes(c', m) <= Hashes(m.chunks) {
      assert c'.cache + SeedHashes(c', m) == c'.cache;
    } else {
      assert c'.cache + SeedHashes(c', m) == c'.cache + (SeedHashes(c', m) + Hashes(m.chunks));
      assert c'.cache + SeedHashes(c', m) == c'.cache + Hashes(c.files[m.key].chunks);
    }
  }

  lemma RecoversSettling(c: Client, q: Queue, m: Manifest, choice: Choice, policy: Policy, q': Queue)
    requires Succeeds(c, q, m, choice, policy) && ValidManifest(m) && Possible(c, m, Settling) && StillServes(q, q', c, m)
    requires choice.UseServer? && m.key in c.files ==> Truthful(c.files[m.key])
    ensures var c' := Interrupted(c, m, choice, Settling);
      && Succeeds(c', q', m, Again(c', m, choice), policy)
      && SameEnd(c, m, choice, Received(c, m, choice), Received(c', m, Again(c', m, choice)))
  {
    var c' := Interrupted(c, m, choice, Settling);
    if Stays(c, m, choice) {
      assert c' == Interrupted(c, m, choice, Marking);
      RecoversBefore(c, q, m, choice, policy, Marking, q');
      SameChoice(c, c', q, m, choice, policy);
    } else {
      RecoversReplaced(c, q, m, choice, policy, q');
    }
  }

  lemma SameChoice(c: Client, c': Client, q: Queue, m: Manifest, choice: Choice, policy: Policy)
    requires Succeeds(c, q, m, choice, policy) && !Journal(c, m, Applied) && c'.tree == c.tree
    ensures Again(c', m, choice) == choice
  {
    hide Seeds, Receipt, Reachable, SeedsMatch, Rebuilds, Blocks, Already;
  }

  lemma Applies(c: Client, m: Manifest, choice: Choice)
    ensures var a := Applying(c, m, choice); Journal(a, m, Applied) && Hashes(m.chunks) <= a.cache && a.role == c.role
  {
    ReadiedReady(c, m);
    hide Readied, Hashes;
  }

  lemma Confirms(c: Client, q: Queue, m: Manifest)
    requires Hashes(m.chunks) <= c.cache && Receipt(q, c.role, m.id, ManifestHash(m)).Done?
    requires forall i | 0 <= i < |m.chunks| :: m.chunks[i].size == |m.chunks[i].hash.preimage| <= MAX_CHUNK
    ensures Confirmable(c, q, m)
  {
    forall i | 0 <= i < |m.chunks|
      ensures m.chunks[i].hash in c.cache
    {
      SomeHash(m.chunks, i);
    }
  }

  lemma RecoversLate(c: Client, q: Queue, m: Manifest, choice: Choice, policy: Policy, p: Crash, q': Queue)
    requires Succeeds(c, q, m, choice, policy) && Possible(c, m, p) && (p.Recording? || p.Receipting? || p.Collecting?)
    requires Receipt(q', c.role, m.id, ManifestHash(m)).Done?
    ensures var c' := Interrupted(c, m, choice, p);
      forall again :: Succeeds(c', q', m, again, policy) && Received(c', m, again) == Received(c, m, choice)
  {
    hide Receipt, Applying, Reachable, SeedsMatch, Acceptable, Hashes, Seeds, Confirmable;
    if !Journal(c, m, Applied) {
      SizesRight(Seeded(c, Seeds(c, m)), q, m);
      Applies(c, m, choice);
      Confirms(Applying(c, m, choice), q', m);
    } else {
      AppliedConfirms(c, q, q', m);
    }
  }

  lemma AppliedConfirms(c: Client, q: Queue, q': Queue, m: Manifest)
    requires Confirmable(c, q, m) && Receipt(q', c.role, m.id, ManifestHash(m)).Done?
    ensures Confirmable(c, q', m)
  {
  }

  /** After power loss at any durable write of a reception, under any choice, with the working file untouched and the
      broker used by others in between, running it again succeeds and leaves what the uninterrupted run leaves. */
  lemma ReceptionRecovers(c: Client, q: Queue, m: Manifest, choice: Choice, policy: Policy, p: Crash, q': Queue)
    requires Succeeds(c, q, m, choice, policy) && ValidManifest(m) && Possible(c, m, p)
    requires choice.UseServer? && m.key in c.files ==> Truthful(c.files[m.key])
    requires Receipt(q', c.role, m.id, ManifestHash(m)).Done?
    requires BeforeSettling(p) || p.Settling? ==> StillServes(q, q', c, m)
    ensures var c' := Interrupted(c, m, choice, p);
      && Succeeds(c', q', m, Again(c', m, choice), policy)
      && SameEnd(c, m, choice, Received(c, m, choice), Received(c', m, Again(c', m, choice)))
  {
    hide Succeeds, Received, ValidManifest, Truthful, Receipt, StillServes, Interrupted, Again, CutOtherwise;
    var c' := Interrupted(c, m, choice, p);
    if BeforeSettling(p) {
      NotApplied(c, m, p);
      RecoversBefore(c, q, m, choice, policy, p, q');
      SameChoice(c, c', q, m, choice, policy);
    } else if p.Settling? {
      RecoversSettling(c, q, m, choice, policy, q');
    } else {
      RecoversLate(c, q, m, choice, policy, p, q');
      assert Succeeds(c', q', m, Again(c', m, choice), policy);
    }
  }

  /** With nobody else at the broker, the rerun also leaves the broker exactly as the uninterrupted run does. */
  lemma ReceptionRecoversBroker(c: Client, q: Queue, m: Manifest, choice: Choice, policy: Policy, p: Crash)
    requires Succeeds(c, q, m, choice, policy) && ValidManifest(m) && Possible(c, m, p)
    requires choice.UseServer? && m.key in c.files ==> Truthful(c.files[m.key])
    ensures var c' := Interrupted(c, m, choice, p); var q' := InterruptedBy(c, q, m, p);
      && Succeeds(c', q', m, Again(c', m, choice), policy)
      && SameEnd(c, m, choice, Received(c, m, choice), Received(c', m, Again(c', m, choice)))
      && ReceivedBy(c', q', m) == ReceivedBy(c, q, m)
  {
    hide Received, Truthful, Interrupted, Again, SameEnd;
    RoleKept(c, m, choice, p);
    assert Receipt(q, c.role, m.id, ManifestHash(m)).Done? by { ReceiptOf(c, q, m, choice, policy); }
    ReceiptRepeats(c, q, m);
    ReceptionRecovers(c, q, m, choice, policy, p, InterruptedBy(c, q, m, p));
  }

  lemma ReceiptOf(c: Client, q: Queue, m: Manifest, choice: Choice, policy: Policy)
    requires Succeeds(c, q, m, choice, policy)
    ensures Receipt(q, c.role, m.id, ManifestHash(m)).Done?
  {
    hide Receipt, Acceptable, SeedsMatch, Reachable, Seeds, Rebuilds, Already;
  }

  lemma RoleKept(c: Client, m: Manifest, choice: Choice, p: Crash)
    requires Possible(c, m, p)
    ensures Interrupted(c, m, choice, p).role == c.role
  {
    ReadiedReady(c, m);
    hide Readied, Seeds, Hashes, Already, Blocks;
  }

  lemma ReceiptRepeats(c: Client, q: Queue, m: Manifest)
    requires Receipt(q, c.role, m.id, ManifestHash(m)).Done?
    ensures forall p: Crash :: Receipt(InterruptedBy(c, q, m, p), c.role, m.id, ManifestHash(m)).Done?
    ensures forall p: Crash :: ReceivedBy(c, InterruptedBy(c, q, m, p), m) == ReceivedBy(c, q, m)
  {
    ReceiptAgain(q, c.role, m.id);
    AcknowledgeAgain(q, c.role, m.id, ManifestHash(m));
  }
}
