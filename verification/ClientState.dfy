/**
 A device's durable state (the tables `files`, `outbox`, `inbox`, the block cache, partial downloads, recovery
 copies and the working tree) and the single durable writes from which sessions are made.
 A cache entry is a file whose bytes were hashed before it was named, so the cache is the set of blocks it holds.
 */
module ClientState {
  import opened Base
  import opened BrokerState

  datatype Phase = Downloading | Ready | Applied
  datatype Row = Row(manifest: Manifest, phase: Phase)

  datatype Client = Client(
    role: Device,
    files: map<Key, Manifest>,
    outbox: map<JobId, Manifest>,
    inbox: map<JobId, Row>,
    cache: set<Hash>,
    partial: map<Hash, Bytes>,
    tree: map<Key, Bytes>,
    recovery: map<(Hash, Path), Bytes>,
    chose: bool)   // a history variable no code reads: an explicit choice between versions was made here at some time

  function Fresh(role: Device): Client {
    Client(role, map[], map[], map[], {}, map[], map[], map[], false)
  }

  /** The explicit decision about one file: which local content it was made for, and which side wins. */
  datatype Choice = NoChoice | KeepLocal(accepted: Option<Hash>) | UseServer(accepted: Option<Hash>)

  // ---------------------------------------------------------------- contents

  function Hashes(chunks: seq<Chunk>): set<Hash> {
    set i | 0 <= i < |chunks| :: chunks[i].hash
  }

  /** The bytes a chunk list stands for. */
  function Blocks(chunks: seq<Chunk>): Bytes {
    if chunks == [] then [] else chunks[0].hash.preimage + Blocks(chunks[1..])
  }

  /** What an honest source writes in a manifest. */
  predicate Truthful(m: Manifest) {
    && ValidManifest(m)
    && (forall i | 0 <= i < |m.chunks| :: m.chunks[i].size == |m.chunks[i].hash.preimage|)
    && (m.kind == PUT ==> m.sha == Some(Sha256(Blocks(m.chunks))))
  }

  function Recorded(c: Client, k: Key): Option<JobId> {
    if k in c.files then Some(c.files[k].id) else None
  }

  function RecordedSha(c: Client, k: Key): Option<Hash> {
    if k in c.files then c.files[k].sha else None
  }

  function Local(c: Client, k: Key): Option<Hash> {
    if k in c.tree then Some(Sha256(c.tree[k])) else None
  }

  predicate Holding(c: Client, m: Manifest) {
    Hashes(m.chunks) <= c.cache
  }

  // ---------------------------------------------------------------- single durable writes

  function WithBlock(c: Client, h: Hash): Client {
    c.(cache := c.cache + {h})
  }

  function WithPartial(c: Client, h: Hash, n: nat): Client
    requires n <= |h.preimage|
  {
    c.(partial := c.partial[h := h.preimage[..n]])
  }

  /** A finished download moves from the partial files to the cache. */
  function WithDownload(c: Client, h: Hash): Client {
    c.(cache := c.cache + {h}, partial := c.partial - {h})
  }

  function Edited(c: Client, k: Key, content: Option<Bytes>): Client {
    c.(tree := if content.Some? then c.tree[k := content.value] else c.tree - {k})
  }

  function Queued(c: Client, m: Manifest): Client {
    c.(outbox := c.outbox[m.id := m])
  }

  /** The transaction that closes a publication. */
  function Announced(c: Client, m: Manifest): Client {
    c.(files := c.files[m.key := m], outbox := c.outbox - {m.id})
  }

  function Journaled(c: Client, m: Manifest): Client {
    if m.id in c.inbox then c else c.(inbox := c.inbox[m.id := Row(m, Downloading)])
  }

  function Marked(c: Client, id: JobId): Client
    requires id in c.inbox
  {
    c.(inbox := c.inbox[id := c.inbox[id].(phase := Ready)])
  }

  function Replaced(c: Client, m: Manifest): Client {
    Edited(c, m.key, if m.kind == PUT then Some(Blocks(m.chunks)) else None)
  }

  /** The transaction that records a received version and marks its row as applied. */
  function Accepted(c: Client, m: Manifest): Client
    requires m.id in c.inbox
  {
    c.(files := c.files[m.key := m], inbox := c.inbox[m.id := c.inbox[m.id].(phase := Applied)])
  }

  function Dropped(c: Client, id: JobId): Client {
    c.(inbox := c.inbox - {id})
  }

  // ---------------------------------------------------------------- writes of an explicit choice

  function Choosing(c: Client): Client {
    c.(chose := true)
  }

  /** Before anything is received under a choice, the inspected content is copied under its own hash. */
  function Backup(c: Client, k: Key): Client {
    if k in c.tree && (Sha256(c.tree[k]), k.path) !in c.recovery
    then c.(recovery := c.recovery[(Sha256(c.tree[k]), k.path) := c.tree[k]]) else c
  }

  /** The outbox forgets what it held for a file. */
  function WithoutOutbox(c: Client, k: Key): Client {
    c.(outbox := map id | id in c.outbox && c.outbox[id].key != k :: c.outbox[id])
  }
}
