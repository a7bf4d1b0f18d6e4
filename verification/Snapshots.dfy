/** The manifest of a scanned file: what it says is true, and its file can be cut and put together again from it. */
module Snapshots {
  import opened Base
  import opened BrokerState
  import opened ClientState
  import opened Receiving
  import Chunker
  import Recovery

  /** The chunk list entries of a list of blocks. */
  function Listed(parts: seq<Bytes>): seq<Chunk> {
    seq(|parts|, i requires 0 <= i < |parts| => Chunk(Sha256(parts[i]), |parts[i]|))
  }

  lemma ListedMore(parts: seq<Bytes>, part: Bytes)
    ensures Listed(parts + [part]) == Listed(parts) + [Chunk(Sha256(part), |part|)]
  {
  }

  lemma {:induction false} ListedBlocks(parts: seq<Bytes>)
    ensures Blocks(Listed(parts)) == Concat(parts)
  {
    if parts != [] {
      assert Listed(parts)[1..] == Listed(parts[1..]);
      ListedBlocks(parts[1..]);
    }
  }

  lemma {:induction false} ListedSum(parts: seq<Bytes>)
    ensures SumSizes(Listed(parts)) == |Concat(parts)|
  {
    if parts != [] {
      var last := |parts| - 1;
      ListedSum(parts[..last]);
      assert Listed(parts)[..last] == Listed(parts[..last]);
      assert parts == parts[..last] + [parts[last]];
      ConcatAppend(parts[..last], [parts[last]]);
      assert Concat([parts[last]]) == parts[last];
    }
  }

  /** The version that a scan of a file puts into the outbox. */
  function Version(id: JobId, key: Key, origin: Device, parent: Option<JobId>, gear: Chunker.Gear, data: Bytes): Manifest {
    Manifest(id, key, origin, parent, PUT, Some(Sha256(data)), |data|, Listed(Chunker.Chunks(gear, data)))
  }

  /** Whatever the file, its version is truthful, as long as it has no more chunks than a version may list. */
  lemma VersionTruthful(id: JobId, key: Key, origin: Device, parent: Option<JobId>, gear: Chunker.Gear, data: Bytes)
    ensures Truthful(Version(id, key, origin, parent, gear, data)) <==> |Chunker.Chunks(gear, data)| <= 100_000
  {
    var parts := Chunker.Chunks(gear, data);
    Chunker.ChunksCover(gear, data);
    ListedBlocks(parts);
    ListedSum(parts);
    hide Chunker.Chunks, Blocks, SumSizes, Concat;
    var m := Version(id, key, origin, parent, gear, data);
    assert forall i | 0 <= i < |m.chunks| :: m.chunks[i] == Chunk(Sha256(parts[i]), |parts[i]|);
  }

  /** A file can be cut again at the sizes of its version, giving the same blocks, and the blocks put together are the file. */
  lemma RecutAndRebuild(gear: Chunker.Gear, data: Bytes)
    ensures var list := Listed(Chunker.Chunks(gear, data));
      && Slices(data, list) == Chunker.Chunks(gear, data) && Recuts(data, list) && Blocks(list) == data
  {
    var parts := Chunker.Chunks(gear, data);
    var list := Listed(parts);
    Chunker.ChunksCover(gear, data);
    ListedBlocks(parts);
    Recovery.SlicesOfBlocks(list);
    hide Chunker.Chunks, Blocks, Slices, Concat;
    assert forall i | 0 <= i < |parts| :: Slices(data, list)[i] == parts[i];
  }

  lemma SnapshotStart(gear: Chunker.Gear, packets: seq<Bytes>)
    ensures Listed([]) == [] && Chunker.FedAll(gear, Chunker.Split([], []), []) == Chunker.Split([], [])
    ensures [] + Concat(packets[0..]) == Concat(packets)
  {
    assert packets[0..] == packets;
  }

  lemma NextRead(gear: Chunker.Gear, data: Bytes, packets: seq<Bytes>, i: nat)
    requires i < |packets| && data + Concat(packets[i..]) == Concat(packets)
    ensures data + packets[i] + Concat(packets[i + 1..]) == Concat(packets)
    ensures var start := Chunker.Split([], []);
      Chunker.FedAll(gear, Chunker.FedAll(gear, start, data), packets[i]) == Chunker.FedAll(gear, start, data + packets[i])
  {
    hide Chunker.FedAll;
    assert packets[i..][1..] == packets[i + 1..];
    Associate(data, packets[i], Concat(packets[i + 1..]));
    Chunker.FedTwice(gear, Chunker.Split([], []), data, packets[i]);
  }

  lemma LastRead(data: Bytes, packets: seq<Bytes>)
    requires data + Concat(packets[|packets|..]) == Concat(packets)
    ensures data == Concat(packets)
  {
    assert packets[|packets|..] == [];
    assert data + [] == data;
  }

  lemma SnapshotHolds(c: Client, gear: Chunker.Gear, data: Bytes, m: Manifest)
    requires m.chunks == Listed(Chunker.Chunks(gear, data))
    ensures Holding(Queued(Seeded(c, Chunker.Chunks(gear, data)), m), m)
  {
    hide Chunker.Chunks;
  }
}
