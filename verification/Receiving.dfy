/** Receiving one version: when it succeeds, what it leaves, and every state a crash can leave behind. */
module Receiving {
  import opened Base
  import opened BrokerState
  import opened BrokerInvariants
  import opened BrokerGuarantees
  import opened ClientState

  /** Whether deletions are synchronized, and whether the user lets a file go to the recycle bin. */
  datatype Policy = Policy(deletes: bool, recycle: bool)

  // ---------------------------------------------------------------- the checks before any write

  predicate Journal(c: Client, m: Manifest, phase: Phase) {
    m.id in c.inbox && c.inbox[m.id].phase == phase
  }

  /** The working file already is this version. */
  predicate Matches(c: Client, m: Manifest) {
    Local(c, m.key) == m.sha && (m.key in c.tree ==> |c.tree[m.key]| == m.size)
  }

  predicate Adopted(c: Client, m: Manifest) {
    m.sha.Some? && Matches(c, m)
  }

  predicate Already(c: Client, m: Manifest) {
    Adopted(c, m) || (Journal(c, m, Ready) && Matches(c, m))
  }

  predicate Acceptable(c: Client, m: Manifest, choice: Choice) {
    match choice
    case NoChoice => m.parent == Recorded(c, m.key) && (Already(c, m) || Local(c, m.key) == RecordedSha(c, m.key))
    case KeepLocal(accepted) => Local(c, m.key) == accepted
    case UseServer(accepted) => Local(c, m.key) == accepted
  }

  // ---------------------------------------------------------------- seeding the cache from the working file

  /** The slices read from a file when it is cut at the sizes of a chunk list; a short or oversized read ends it. */
  function Slices(data: Bytes, chunks: seq<Chunk>): seq<Bytes> {
    if chunks == [] || chunks[0].size == 0 || chunks[0].size > MAX_CHUNK || |data| < chunks[0].size then []
    else [data[..chunks[0].size]] + Slices(data[chunks[0].size..], chunks[1..])
  }

  predicate Recuts(data: Bytes, chunks: seq<Chunk>) {
    |Slices(data, chunks)| == |chunks| && forall i | 0 <= i < |chunks| :: Sha256(Slices(data, chunks)[i]) == chunks[i].hash
  }

  /** The working file still holds the recorded version, whose blocks must then outlive it. */
  predicate AtBase(c: Client, k: Key) {
    RecordedSha(c, k).Some? && Local(c, k) == RecordedSha(c, k)
  }

  function Seeds(c: Client, m: Manifest): seq<Bytes> {
    (if Adopted(c, m) then Slices(c.tree[m.key], m.chunks) else [])
    + (if AtBase(c, m.key) then Slices(c.tree[m.key], c.files[m.key].chunks) else [])
  }

  predicate SeedsMatch(c: Client, m: Manifest) {
    && (Adopted(c, m) ==> Recuts(c.tree[m.key], m.chunks))
    && (AtBase(c, m.key) ==> Recuts(c.tree[m.key], c.files[m.key].chunks))
  }

  function Seeded(c: Client, blocks: seq<Bytes>): Client {
    c.(cache := c.cache + set i | 0 <= i < |blocks| :: Sha256(blocks[i]))
  }

  // ---------------------------------------------------------------- downloading

  function PartOf(c: Client, h: Hash): Bytes {
    if h in c.partial then c.partial[h] else []
  }

  /** The block is cached, or already downloaded in full, or the broker serves what is missing of it. */
  predicate Fetchable(c: Client, q: Queue, id: JobId, chunk: Chunk) {
    && chunk.size == |chunk.hash.preimage| <= MAX_CHUNK
    && (|| chunk.hash in c.cache
        || PartOf(c, chunk.hash) == chunk.hash.preimage
        || (PartOf(c, chunk.hash) <= chunk.hash.preimage && Served(q, id, chunk.hash)
            && q.chunks[chunk.hash] == chunk.hash.preimage))
  }

  predicate Reachable(c: Client, q: Queue, m: Manifest) {
    forall i | 0 <= i < |m.chunks| :: Fetchable(c, q, m.id, m.chunks[i])
  }

  /** The state once a list of blocks has been fetched; blocks that were cached keep any stale partial file. */
  function Fetched(c: Client, chunks: seq<Chunk>): Client {
    c.(cache := c.cache + Hashes(chunks), partial := c.partial - (Hashes(chunks) - c.cache))
  }

  lemma FetchedNone(c: Client)
    ensures Fetched(c, []) == c
  {
    assert Hashes([]) == {};
  }

  lemma FetchedMore(c: Client, chunks: seq<Chunk>)
    requires chunks != []
    ensures var n := |chunks| - 1; var before := Fetched(c, chunks[..n]);
      Fetched(c, chunks) == if chunks[n].hash in c.cache + Hashes(chunks[..n]) then before else WithDownload(before, chunks[n].hash)
  {
    var n := |chunks| - 1;
    HashesMore(chunks);
    hide Hashes;
    var h := chunks[n].hash;
    var a := Hashes(chunks[..n]);
    if h in c.cache + a {
      assert c.cache + (a + {h}) == c.cache + a;
      assert a + {h} - c.cache == a - c.cache;
    } else {
      assert c.cache + (a + {h}) == c.cache + a + {h};
      assert c.partial - (a + {h} - c.cache) == c.partial - (a - c.cache) - {h};
    }
  }

  lemma HashesMore(chunks: seq<Chunk>)
    requires chunks != []
    ensures Hashes(chunks) == Hashes(chunks[..|chunks| - 1]) + {chunks[|chunks| - 1].hash}
  {
  }

  // ---------------------------------------------------------------- the whole

  predicate NeedsRecycle(c: Client, m: Manifest, choice: Choice) {
    m.kind == DELETE && !Already(c, m) && !choice.KeepLocal? && m.key in c.tree
  }

  predicate Rebuilds(m: Manifest) {
    m.sha == Some(Sha256(Blocks(m.chunks))) && |Blocks(m.chunks)| == m.size
  }

  predicate Confirmable(c: Client, q: Queue, m: Manifest) {
    && (forall i | 0 <= i < |m.chunks| :: m.chunks[i].hash in c.cache && |m.chunks[i].hash.preimage| == m.chunks[i].size)
    && Receipt(q, c.role, m.id, ManifestHash(m)).Done?
  }

  predicate Succeeds(c: Client, q: Queue, m: Manifest, choice: Choice, policy: Policy) {
    if Journal(c, m, Applied) then Confirmable(c, q, m)
    else
      && Acceptable(c, m, choice)
      && SeedsMatch(c, m)
      && (m.kind == DELETE ==> policy.deletes || choice.KeepLocal?)
      && Reachable(Seeded(c, Seeds(c, m)), q, m)
      && (m.kind == PUT && !Already(c, m) && !choice.KeepLocal? ==> Rebuilds(m))
      && (NeedsRecycle(c, m, choice) ==> policy.recycle)
      && Receipt(q, c.role, m.id, ManifestHash(m)).Done?
  }

  /** The working file is replaced, or moved to the recycle bin, unless it already is what is wanted. */
  function Settled(c: Client, m: Manifest, already: bool): Client {
    if already then c else Replaced(c, m)
  }

  /** The version is journaled, its blocks are at hand and the row says so. */
  function Readied(c: Client, m: Manifest): Client {
    Marked(Fetched(Journaled(Seeded(c, Seeds(c, m)), m), m.chunks), m.id)
  }

  function Stays(c: Client, m: Manifest, choice: Choice): bool {
    Already(c, m) || choice.KeepLocal?
  }

  function Applying(c: Client, m: Manifest, choice: Choice): Client {
    Accepted(Settled(Readied(c, m), m, Stays(c, m, choice)), m)
  }

  /** The device's own state after a version was received. */
  function Received(c: Client, m: Manifest, choice: Choice): Client {
    Dropped(if Journal(c, m, Applied) then c else Applying(c, m, choice), m.id)
  }

  function ReceivedBy(c: Client, q: Queue, m: Manifest): Queue {
    After(q, Acknowledge(q, c.role, m.id, ManifestHash(m)))
  }

  // ---------------------------------------------------------------- where a crash can strike

  datatype Crash =
    | Seeding(n: nat)                  // n blocks of the working file are cached
    | Gathering(n: nat)                // the row exists and n blocks are here
    | Fetching(n: nat, bytes: nat)     // n blocks are here, and that many bytes of the next one
    | Marking                          // the row is Ready
    | Settling                         // the working file is in place
    | Recording                        // the head is recorded and the row is Applied
    | Receipting                       // the broker has the receipt
    | Collecting                       // the broker has collected as well

  predicate Possible(c: Client, m: Manifest, p: Crash) {
    match p
    case Seeding(n) => n <= |Seeds(c, m)| && !Journal(c, m, Applied)
    case Gathering(n) => n <= |m.chunks| && !Journal(c, m, Applied)
    case Fetching(n, bytes) =>
      !Journal(c, m, Applied) && n < |m.chunks| && m.chunks[n].hash !in Fetched(Seeded(c, Seeds(c, m)), m.chunks[..n]).cache
      && |PartOf(c, m.chunks[n].hash)| <= bytes <= |m.chunks[n].hash.preimage|
    case Receipting => true
    case Collecting => true
    case _ => !Journal(c, m, Applied)
  }

  /** The device's state when power is lost at a point. */
  function Interrupted(c: Client, m: Manifest, choice: Choice, p: Crash): Client
    requires Possible(c, m, p)
  {
    match p
    case Seeding(n) => Seeded(c, Seeds(c, m)[..n])
    case Gathering(n) => Fetched(Journaled(Seeded(c, Seeds(c, m)), m), m.chunks[..n])
    case Fetching(n, bytes) =>
      WithPartial(Fetched(Journaled(Seeded(c, Seeds(c, m)), m), m.chunks[..n]), m.chunks[n].hash, bytes)
    case Marking => Readied(c, m)
    case Settling => Settled(Readied(c, m), m, Stays(c, m, choice))
    case Recording => Applying(c, m, choice)
    case Receipting => if Journal(c, m, Applied) then c else Applying(c, m, choice)
    case Collecting => if Journal(c, m, Applied) then c else Applying(c, m, choice)
  }

  function InterruptedBy(c: Client, q: Queue, m: Manifest, p: Crash): Queue {
    match p
    case Receipting => After(q, Receipt(q, c.role, m.id, ManifestHash(m)))
    case Collecting => ReceivedBy(c, q, m)
    case _ => q
  }
}
