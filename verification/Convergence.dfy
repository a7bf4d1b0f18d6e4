/** Receiving everything that is pending brings a device to the server's heads, whatever the others do meanwhile. */
module Convergence {
  import opened Base
  import opened BrokerState
  import opened BrokerInvariants
  import opened BrokerGuarantees
  import opened ClientState
  import opened Receiving
  import opened Recovery
  import opened SyncSystem
  import opened SyncInvariants
  import opened SyncGuarantees
  import opened ReceptionRun
  import opened Interference
  import opened Alignment

  // ---------------------------------------------------------------- receiving a list of versions

  /** The state after one reception by a device. */
  ghost function ReceiveOne(s: System, d: Device, m: Manifest): System
    requires d in s.clients
  {
    System(ReceivedBy(s.clients[d], s.q, m), s.clients[d := Received(s.clients[d], m, NoChoice)])
  }

  /** Receptions one after the other, with the given steps of other devices before each. */
  ghost function ReceiveAll(s: System, d: Device, ms: seq<Manifest>, others: seq<seq<Event>>): System
    requires |others| == |ms|
    decreases |ms|
  {
    if ms == [] then s
    else
      var t := Run(s, others[0]);
      if d in t.clients then ReceiveAll(ReceiveOne(t, d, ms[0]), d, ms[1..], others[1..]) else t
  }

  /** Every one of the receptions goes through. */
  ghost predicate AllSucceed(s: System, d: Device, ms: seq<Manifest>, others: seq<seq<Event>>, policy: Policy)
    requires |others| == |ms|
    decreases |ms|
  {
    ms == [] ||
    var t := Run(s, others[0]);
    && d in t.clients && Succeeds(t.clients[d], t.q, ms[0], NoChoice, policy)
    && AllSucceed(ReceiveOne(t, d, ms[0]), d, ms[1..], others[1..], policy)
  }

  // ---------------------------------------------------------------- what is kept on the way

  /** The working files of a dataset are the recorded versions. */
  predicate Clean(c: Client, ds: Dataset) {
    forall k | k in c.tree.Keys + c.files.Keys && k.dataset == ds :: Local(c, k) == RecordedSha(c, k)
  }

  /** Each block of a version is in the device's cache or on the broker. */
  predicate AtHand(q: Queue, c: Client, m: Manifest) {
    forall h | h in Hashes(m.chunks) :: h in c.cache || h in q.chunks
  }

  ghost predicate OwedHere(q: Queue, d: Device, c: Client, ds: Dataset, m: Manifest) {
    Owed(q, d, m) && m.key.dataset == ds && AtHand(q, c, m)
  }

  /** Each version's parent is acknowledged or comes earlier in the list. */
  ghost predicate Ordered(q: Queue, d: Device, ms: seq<Manifest>) {
    && (forall i, j | 0 <= i < j < |ms| :: ms[i].id != ms[j].id)
    && (forall i | 0 <= i < |ms| && ms[i].parent.Some? ::
          Acknowledged(q, d, ms[i].parent.value) || exists j :: 0 <= j < i && ms[j].id == ms[i].parent.value)
  }

  /** The rest of a pull that began in an earlier state of the broker: what is left to receive is owed and at hand, parents
      first, and every version committed at the beginning is acknowledged or in the list. */
  ghost predicate OnTheWay(start: Queue, s: System, d: Device, ds: Dataset, ms: seq<Manifest>) {
    && SystemOk(s) && d in s.clients
    && Clean(s.clients[d], ds) && NoRowOf(s.clients[d], ds)
    && (forall i | 0 <= i < |ms| :: OwedHere(s.q, d, s.clients[d], ds, ms[i]))
    && Ordered(s.q, d, ms)
    && Ahead(start, s.q, d, s.clients[d], ds, ms)
  }

  /** Each version committed in the start is acknowledged or still in the list; what is listed or recorded dates from then. */
  ghost predicate Ahead(start: Queue, q: Queue, d: Device, c: Client, ds: Dataset, ms: seq<Manifest>) {
    && Evolves(start, q)
    && (forall i | 0 <= i < |ms| :: IsCommitted(start, ms[i]))
    && (forall id | id in start.jobs && start.jobs[id].Committed() && start.jobs[id].manifest.key.dataset == ds ::
          Acknowledged(q, d, id) || exists i :: 0 <= i < |ms| && ms[i].id == id)
    && (forall k | k in c.files && k.dataset == ds :: IsCommitted(start, c.files[k]))
  }

  // ---------------------------------------------------------------- the next version fits on the recorded head

  lemma NoRowAt(q: Queue, c: Client, ds: Dataset, id: JobId)
    requires RowsKnown(q, c) && NoRowOf(c, ds) && id in q.jobs && q.jobs[id].manifest.key.dataset == ds
    ensures id !in c.inbox
  {
  }

  /** The file's next recorded version, when one of its versions is acknowledged, is the one that follows it. */
  lemma ParentRecorded(q: Queue, d: Device, c: Client, m: Manifest)
    requires Parented(q.jobs) && OnlyChildren(q.jobs) && HeadsCommitted(q, c) && IsCommitted(q, m)
    requires m.id !in Upto(q, c, m.key)
    requires m.parent.Some? ==> m.parent.value in Upto(q, c, m.key)
    ensures m.parent == Recorded(c, m.key)
  {
    var k := m.key;
    if k in c.files {
      var l := Upto(q, c, k);
      LineageChain(q.jobs, c.files[k].id);
      forall i | 0 <= i < |l|
        ensures q.jobs[l[i]].Committed() && q.jobs[l[i]].manifest.key == k
      {
        UptoCommitted(q, c, k, l[i]);
      }
      var first := l[0];
      hide Upto, OnlyChildren;
      if m.parent == None {
        SoleChild(q, first, m);
        assert false;
      } else if m.parent.value != c.files[k].id {
        var i :| 0 <= i < |l| && l[i] == m.parent.value;
        SoleChild(q, l[i + 1], m);
        assert false;
      }
    }
  }

  /** For a device that is aligned the next version of the list is the one that follows the recorded head. */
  lemma NextOnHead(start: Queue, s: System, d: Device, ds: Dataset, ms: seq<Manifest>)
    requires Inv(start) && OnTheWay(start, s, d, ds, ms) && ms != [] && AlignedOn(start, s.q, d, s.clients[d], ds)
    ensures ms[0].parent == Recorded(s.clients[d], ms[0].key)
  {
    var c := s.clients[d];
    var m := ms[0];
    assert OwedHere(s.q, d, c, ds, m) && IsCommitted(start, m) && Evolves(start, s.q);
    assert m.parent.Some? ==> Acknowledged(s.q, d, m.parent.value);
    assert Parented(start.jobs) && Parented(s.q.jobs) && OnlyChildren(s.q.jobs);
    DeviceOf(s, d);
    hide SystemOk, Inv, Clean, Ordered, Ahead, AtHand, DeviceInv, BlocksKept, OutboxOwn, HeadsCommitted, OnlyChildren, Upto;
    NoRowAt(s.q, c, ds, m.id);
    assert AlignedAt(s.q, d, c, m.id);
    if m.parent.Some? {
      ParentSeen(start, s.q, d, c, ds, m);
    }
    ParentRecorded(s.q, d, c, m);
  }

  lemma ParentSeen(start: Queue, q: Queue, d: Device, c: Client, ds: Dataset, m: Manifest)
    requires Parented(start.jobs) && Evolves(start, q) && RowsKnown(q, c) && NoRowOf(c, ds) && AlignedOn(start, q, d, c, ds)
    requires IsCommitted(start, m) && m.key.dataset == ds && m.parent.Some? && Acknowledged(q, d, m.parent.value)
    ensures m.parent.value in Upto(q, c, m.key)
  {
    var p := m.parent.value;
    assert start.jobs[p].Committed() && q.jobs[p].manifest.key == m.key;
    hide Upto;
    NoRowAt(q, c, ds, p);
    assert AlignedAt(q, d, c, p);
  }

  // ---------------------------------------------------------------- the next version is received

  lemma {:induction false} SumAppend(a: seq<Chunk>, c: Chunk)
    ensures SumSizes(a + [c]) == SumSizes(a) + c.size
  {
    assert (a + [c])[..|a|] == a;
  }

  lemma {:induction false} SumFront(chunks: seq<Chunk>)
    requires chunks != []
    ensures SumSizes(chunks) == chunks[0].size + SumSizes(chunks[1..])
  {
    var n := |chunks| - 1;
    if n > 0 {
      SumFront(chunks[..n]);
      assert chunks[1..] == chunks[..n][1..] + [chunks[n]];
      SumAppend(chunks[..n][1..], chunks[n]);
    }
  }

  lemma {:induction false} BlocksSize(chunks: seq<Chunk>)
    requires forall i | 0 <= i < |chunks| :: chunks[i].size == |chunks[i].hash.preimage|
    ensures |Blocks(chunks)| == SumSizes(chunks)
  {
    if chunks != [] {
      SumFront(chunks);
      BlocksSize(chunks[1..]);
    }
  }

  lemma TruthfulRebuilds(m: Manifest)
    requires Truthful(m)
    ensures m.kind == PUT ==> Rebuilds(m)
    ensures m.kind == DELETE ==> m.sha == None && m.chunks == []
    ensures forall i | 0 <= i < |m.chunks| :: 0 < m.chunks[i].size == |m.chunks[i].hash.preimage| <= MAX_CHUNK
    ensures Recuts(Blocks(m.chunks), m.chunks)
  {
    BlocksSize(m.chunks);
    SlicesOfBlocks(m.chunks);
  }

  /** A working file with the content of a truthful version is cut into that version's blocks. */
  lemma ContentRecuts(c: Client, k: Key, m: Manifest)
    requires Truthful(m) && m.sha.Some? && Local(c, k) == m.sha
    ensures k in c.tree && Recuts(c.tree[k], m.chunks) && |c.tree[k]| == m.size
  {
    TruthfulRebuilds(m);
    assert m.kind == PUT;
    assert c.tree[k] == Blocks(m.chunks);
    hide Recuts, Truthful;
  }

  lemma SeedsFit(c: Client, m: Manifest)
    requires Truthful(m) && (m.key in c.files ==> Truthful(c.files[m.key]))
    ensures SeedsMatch(c, m)
  {
    hide Truthful, Recuts;
    if Adopted(c, m) {
      ContentRecuts(c, m.key, m);
    }
    if AtBase(c, m.key) {
      ContentRecuts(c, m.key, c.files[m.key]);
    }
  }

  lemma AtHandFetchable(q: Queue, c: Client, m: Manifest, blocks: seq<Bytes>)
    requires Truthful(m) && (Holding(c, m) || (AtHand(q, c, m) && m.id in q.jobs && q.jobs[m.id].state == READY))
    requires Holding(c, m) || Hashes(m.chunks) <= q.jobs[m.id].blocks.Keys
    requires forall h | h in q.chunks :: q.chunks[h] == h.preimage
    requires forall h | h in c.partial :: c.partial[h] <= h.preimage
    ensures Reachable(Seeded(c, blocks), q, m)
  {
    TruthfulRebuilds(m);
    hide Truthful, Recuts, Rebuilds;
    forall i | 0 <= i < |m.chunks|
      ensures Fetchable(Seeded(c, blocks), q, m.id, m.chunks[i])
    {
      SomeHash(m.chunks, i);
    }
  }

  /** What the invariant says of a committed version and of the device that is about to receive it. */
  lemma CommittedFacts(s: System, d: Device, m: Manifest)
    requires SystemOk(s) && d in s.clients && IsCommitted(s.q, m)
    ensures Truthful(m) && Hashes(m.chunks) <= s.q.jobs[m.id].blocks.Keys
    ensures forall h | h in s.q.chunks :: s.q.chunks[h] == h.preimage
    ensures forall h | h in s.clients[d].partial :: s.clients[d].partial[h] <= h.preimage
    ensures forall k | k in s.clients[d].files :: Truthful(s.clients[d].files[k])
    ensures s.clients[d].role == d
    ensures d in s.q.jobs[m.id].receipts ==> Holding(s.clients[d], m)
    ensures d in s.q.jobs[m.id].recipients && d !in s.q.jobs[m.id].receipts ==> s.q.jobs[m.id].state == READY
  {
    DeviceOf(s, d);
    assert WellFormed(s.q.jobs) && ReceiptsBacked(s.q.jobs, s.q.inventory) && FilesTracked(s.q.objects, s.q.chunks, s.q.uploads) && Honest(s.q);
    hide Inv, SystemOk, DeviceInv, RowsKnown, OutboxOwn, OutboxesApart, Sizes, ValidManifest;
    assert Truthful(m);
    TruthfulSizes(m);
    hide Truthful, Hashes;
  }

  lemma BaseSucceeds(c: Client, q: Queue, m: Manifest, policy: Policy)
    requires !Journal(c, m, Applied) && m.parent == Recorded(c, m.key) && Local(c, m.key) == RecordedSha(c, m.key)
    requires SeedsMatch(c, m) && Reachable(Seeded(c, Seeds(c, m)), q, m) && (m.kind == PUT ==> Rebuilds(m))
    requires policy.deletes && policy.recycle && Receipt(q, c.role, m.id, ManifestHash(m)).Done?
    ensures Succeeds(c, q, m, NoChoice, policy)
  {
    hide SeedsMatch, Reachable, Seeded, Seeds, Rebuilds, Receipt, Already, Journal;
  }

  lemma CommittedReceipt(q: Queue, d: Device, m: Manifest)
    requires IsCommitted(q, m)
    ensures Receipt(q, d, m.id, ManifestHash(m)).Done?
  {
    hide Receipted;
  }

  /** A version on the recorded head of a clean device, its blocks at hand or held, is received. */
  lemma OnHeadSucceeds(s: System, d: Device, ds: Dataset, m: Manifest, policy: Policy)
    requires SystemOk(s) && d in s.clients && Clean(s.clients[d], ds) && m.key.dataset == ds && policy.deletes && policy.recycle
    requires IsCommitted(s.q, m) && !Journal(s.clients[d], m, Applied) && m.parent == Recorded(s.clients[d], m.key)
    requires AtHand(s.q, s.clients[d], m) && d in s.q.jobs[m.id].recipients
    ensures Succeeds(s.clients[d], s.q, m, NoChoice, policy)
  {
    var c := s.clients[d];
    CleanAt(c, ds, m.key);
    hide Clean, SystemOk;
    CommittedFacts(s, d, m);
    CommittedReceipt(s.q, d, m);
    hide Truthful, Seeds, SeedsMatch, Reachable, Rebuilds, Hashes, AtHand, Succeeds, Receipt, Recuts, Journal, Holding;
    SeedsFit(c, m);
    AtHandFetchable(s.q, c, m, Seeds(c, m));
    TruthfulRebuilds(m);
    BaseSucceeds(c, s.q, m, policy);
  }

  /** What success without a choice tells of a version that was not applied before. */
  lemma SucceedsOnHead(c: Client, q: Queue, m: Manifest, policy: Policy)
    requires Succeeds(c, q, m, NoChoice, policy)
    ensures Journal(c, m, Applied) || m.parent == Recorded(c, m.key)
  {
    hide SeedsMatch, Seeds, Reachable, Rebuilds, Receipt, Already, NeedsRecycle, Confirmable;
  }

  lemma CleanAt(c: Client, ds: Dataset, k: Key)
    requires Clean(c, ds) && k.dataset == ds
    ensures Local(c, k) == RecordedSha(c, k)
  {
  }

  // ---------------------------------------------------------------- after the next version

  /** What a reception leaves of the device: the version is recorded, in place and no longer journaled. */
  lemma ReceivedFacts(c: Client, m: Manifest)
    requires Truthful(m) && !Journal(c, m, Applied)
    ensures var f := Received(c, m, NoChoice);
      && f.files == c.files[m.key := m] && f.inbox == c.inbox - {m.id} && f.outbox == c.outbox && f.role == c.role && f.chose == c.chose && c.cache <= f.cache
      && (forall k | k != m.key :: Local(f, k) == Local(c, k))
      && Local(f, m.key) == m.sha
  {
    assert m.kind == DELETE ==> m.sha == None;
    hide Readied, Truthful, Seeds, SeedHashes, ReadyPartial, Hashes, Already, Blocks, Settled, ReadyRow;
    ReadiedForm(c, m);
    var r := Readied(c, m);
    SettledTree(c, r, m);
    RecordedTree(c, Settled(r, m, Already(c, m)), m, ReadyRow(c, m));
  }

  lemma RecordedTree(c: Client, t: Client, m: Manifest, row: Row)
    requires t.inbox == c.inbox[m.id := row] && t.files == c.files
    ensures var f := Dropped(Accepted(t, m), m.id);
      && f == t.(files := c.files[m.key := m], inbox := c.inbox - {m.id})
      && forall k :: Local(f, k) == Local(t, k)
  {
    assert t.inbox[m.id := t.inbox[m.id].(phase := Applied)] - {m.id} == c.inbox - {m.id};
  }

  lemma SettledTree(c: Client, r: Client, m: Manifest)
    requires r.tree == c.tree && (m.kind == DELETE ==> m.sha == None) && Truthful(m)
    ensures var t := Settled(r, m, Already(c, m));
      && t == r.(tree := t.tree) && Local(t, m.key) == m.sha && forall k | k != m.key :: Local(t, k) == Local(c, k)
  {
  }

  lemma CleanAfter(c: Client, f: Client, ds: Dataset, m: Manifest)
    requires Clean(c, ds) && f.files == c.files[m.key := m] && Local(f, m.key) == m.sha
    requires forall k | k != m.key :: Local(f, k) == Local(c, k)
    ensures Clean(f, ds)
  {
    forall k | k in f.tree.Keys + f.files.Keys && k.dataset == ds
      ensures Local(f, k) == RecordedSha(f, k)
    {
      if k != m.key {
        CleanAt(c, ds, k);
      }
    }
  }

  lemma OwedStays(q: Queue, q': Queue, d: Device, c: Client, c': Client, ds: Dataset, m: Manifest, done: JobId)
    requires OwedHere(q, d, c, ds, m) && m.id != done && c.cache <= c'.cache
    requires Hashes(m.chunks) <= q.jobs[m.id].blocks.Keys && AcksOnly(q, q', d, done) && KeepsOthers(q, q', d, done)
    ensures OwedHere(q', d, c', ds, m)
  {
    hide Hashes;
  }

  lemma OrderedTail(q: Queue, q': Queue, d: Device, ms: seq<Manifest>)
    requires ms != [] && Ordered(q, d, ms) && Evolves(q, q') && Acknowledged(q', d, ms[0].id)
    requires forall id | id in q.jobs && d in q.jobs[id].receipts :: d in q'.jobs[id].receipts
    ensures Ordered(q', d, ms[1..])
  {
    var rest := ms[1..];
    forall i | 0 <= i < |rest| && rest[i].parent.Some?
      ensures Acknowledged(q', d, rest[i].parent.value) || exists j :: 0 <= j < i && rest[j].id == rest[i].parent.value
    {
      assert rest[i] == ms[i + 1];
      if !Acknowledged(q, d, rest[i].parent.value) {
        var j :| 0 <= j < i + 1 && ms[j].id == rest[i].parent.value;
        if j > 0 {
          assert rest[j - 1] == ms[j];
        }
      }
    }
  }

  lemma NoRowAfter(c: Client, c': Client, ds: Dataset)
    requires NoRowOf(c, ds) && c'.inbox.Keys <= c.inbox.Keys && (forall id | id in c'.inbox :: c'.inbox[id] == c.inbox[id])
    ensures NoRowOf(c', ds)
  {
  }

  lemma ReceivedOk(s: System, d: Device, m: Manifest)
    requires SystemOk(s) && Receivable(s, d, m) && Receipt(s.q, d, m.id, ManifestHash(m)).Done?
    requires Journal(s.clients[d], m, Applied) || Entitled(s.clients[d], m)
    ensures SystemOk(ReceiveOne(s, d, m))
  {
    hide SystemOk, Run, Reception, Receivable, Receipt, Entitled;
    assert d in s.clients by { ReceivableDevice(s, d, m); }
    ReceptionIsRun(s, d, m, NoChoice);
    RunOk(s, Reception(s.clients[d], d, m, NoChoice));
  }

  lemma ReceivableDevice(s: System, d: Device, m: Manifest)
    requires Receivable(s, d, m)
    ensures d in s.clients && s.clients[d].role == d
  {
  }

  /** What a reception does to system and device, whatever list it belongs to. */
  lemma ReceptionFacts(s: System, d: Device, m: Manifest)
    requires SystemOk(s) && d in s.clients && IsCommitted(s.q, m) && (m.id in s.clients[d].inbox || d !in s.q.jobs[m.id].receipts)
    requires Journal(s.clients[d], m, Applied) || m.parent == Recorded(s.clients[d], m.key)
    requires m.id in s.clients[d].inbox || NoRowOf(s.clients[d], m.key.dataset)
    ensures var t := ReceiveOne(s, d, m); var c := s.clients[d]; var f := t.clients[d];
      && SystemOk(t) && d in t.clients && Receives(s.q, t.q, d, c, f, m) && KeepsOthers(s.q, t.q, d, m.id)
      && c.cache <= f.cache && f.outbox == c.outbox && f.chose == c.chose
      && (if Journal(c, m, Applied) then f.files == c.files && f.tree == c.tree
          else f.files == c.files[m.key := m] && Local(f, m.key) == m.sha && forall k | k != m.key :: Local(f, k) == Local(c, k))
  {
    hide SystemOk, Inv, Honest, FilesTracked, Receivable, Receipt, Received, Acknowledge, AcksOnly, KeepsOthers, Entitled, NoRowOf, Truthful, IsCommitted, Journal;
    ReceptionReceivable(s, d, m);
    CommittedReceipt(s.q, d, m);
    PartsOf(s);
    ReceivedOk(s, d, m);
    AcknowledgedFrame(s.q, d, m);
    ReceivedDevice(s.clients[d], m);
    AppliedJournal(s.clients[d], m);
  }

  lemma AppliedJournal(c: Client, m: Manifest)
    ensures Journal(c, m, Applied) <==> AppliedRow(c, m.id)
  {
  }

  /** What a reception leaves of the device, whether its version was applied before or not. */
  lemma ReceivedDevice(c: Client, m: Manifest)
    requires Journal(c, m, Applied) || Truthful(m)
    ensures var f := Received(c, m, NoChoice);
      && f.inbox == c.inbox - {m.id} && c.cache <= f.cache && f.outbox == c.outbox && f.chose == c.chose
      && (if Journal(c, m, Applied) then f.files == c.files && f.tree == c.tree
          else f.files == c.files[m.key := m] && Local(f, m.key) == m.sha && forall k | k != m.key :: Local(f, k) == Local(c, k))
  {
    if !Journal(c, m, Applied) {
      hide Received, Truthful;
      ReceivedFacts(c, m);
    }
  }

  lemma ReceptionReceivable(s: System, d: Device, m: Manifest)
    requires SystemOk(s) && d in s.clients && IsCommitted(s.q, m) && (m.id in s.clients[d].inbox || d !in s.q.jobs[m.id].receipts)
    requires Journal(s.clients[d], m, Applied) || m.parent == Recorded(s.clients[d], m.key)
    requires m.id in s.clients[d].inbox || NoRowOf(s.clients[d], m.key.dataset)
    ensures Receivable(s, d, m) && (Journal(s.clients[d], m, Applied) || Entitled(s.clients[d], m)) && s.clients[d].role == d
    ensures Truthful(m)
  {
    DeviceOf(s, d);
    assert Honest(s.q);
    hide SystemOk, Inv, DeviceInv, HeadsCommitted, OutboxOwn, BlocksKept, Truthful, NoRowOf;
  }

  /** Receiving the first version of the list leaves a state on the way, as much aligned as before. */
  lemma OnTheWayNext(start: Queue, s: System, d: Device, ds: Dataset, ms: seq<Manifest>, policy: Policy)
    requires OnTheWay(start, s, d, ds, ms) && ms != [] && Succeeds(s.clients[d], s.q, ms[0], NoChoice, policy)
    ensures var t := ReceiveOne(s, d, ms[0]);
      && OnTheWay(start, t, d, ds, ms[1..])
      && (AlignedOn(start, t.q, d, t.clients[d], ds) <==> AlignedOn(start, s.q, d, s.clients[d], ds))
  {
    var c, m, t := s.clients[d], ms[0], ReceiveOne(s, d, ms[0]);
    var f := t.clients[d];
    assert OwedHere(s.q, d, c, ds, m);
    DeviceOf(s, d);
    assert Parented(s.q.jobs) by { PartsOf(s); hide SystemOk; }
    hide SystemOk, ReceiveOne, Received, Succeeds, Parented, HeadsCommitted, OutboxOwn, BlocksKept, DeviceInv, AlignedOn, KeepsOthers, AcksOnly;
    hide Clean, Ordered, Ahead, AtHand, Truthful;
    NoRowAt(s.q, c, ds, m.id);
    SucceedsOnHead(c, s.q, m, policy);
    ReceptionFacts(s, d, m);
    AlignedReceived(start, s.q, t.q, d, c, f, m, ds);
    CleanAfter(c, f, ds, m);
    NoRowAfter(c, f, ds);
    hide NoRowOf, RowsKnown;
    RestOwed(s, d, ds, ms, t.q, f);
    RestOrdered(s.q, t.q, d, ms);
    AheadStep(start, s.q, t.q, d, c, f, ds, ms);
  }

  lemma RestOwed(s: System, d: Device, ds: Dataset, ms: seq<Manifest>, q': Queue, c': Client)
    requires SystemOk(s) && d in s.clients && ms != [] && Ordered(s.q, d, ms) && s.clients[d].cache <= c'.cache
    requires forall i | 0 <= i < |ms| :: OwedHere(s.q, d, s.clients[d], ds, ms[i])
    requires AcksOnly(s.q, q', d, ms[0].id) && KeepsOthers(s.q, q', d, ms[0].id)
    ensures forall i | 0 <= i < |ms[1..]| :: OwedHere(q', d, c', ds, ms[1..][i])
  {
    hide SystemOk, AtHand, AcksOnly, KeepsOthers, Hashes;
    forall i | 0 <= i < |ms[1..]|
      ensures OwedHere(q', d, c', ds, ms[1..][i])
    {
      assert ms[1..][i] == ms[i + 1] && OwedHere(s.q, d, s.clients[d], ds, ms[i + 1]);
      CommittedFacts(s, d, ms[i + 1]);
      OwedStays(s.q, q', d, s.clients[d], c', ds, ms[i + 1], ms[0].id);
    }
  }

  lemma RestOrdered(q: Queue, q': Queue, d: Device, ms: seq<Manifest>)
    requires ms != [] && Ordered(q, d, ms) && AcksOnly(q, q', d, ms[0].id) && ms[0].id in q.jobs
    ensures Ordered(q', d, ms[1..])
  {
    hide Ordered;
    OrderedTail(q, q', d, ms);
  }

  // ---------------------------------------------------------------- other devices in between

  lemma OwedThrough(q: Queue, q': Queue, d: Device, c: Client, ds: Dataset, m: Manifest)
    requires OwedHere(q, d, c, ds, m) && Undisturbed(q, q', d, c) && Hashes(m.chunks) <= q.jobs[m.id].blocks.Keys
    ensures OwedHere(q', d, c, ds, m)
  {
    hide Hashes;
  }

  lemma OrderedThrough(q: Queue, q': Queue, d: Device, c: Client, ds: Dataset, ms: seq<Manifest>)
    requires Undisturbed(q, q', d, c)
    ensures Ordered(q, d, ms) ==> Ordered(q', d, ms)
    ensures forall id :: Acknowledged(q, d, id) ==> Acknowledged(q', d, id)
  {
  }

  /** What other devices do in between does not get in the way. */
  lemma OnTheWayThrough(start: Queue, s: System, d: Device, ds: Dataset, ms: seq<Manifest>, events: seq<Event>)
    requires OnTheWay(start, s, d, ds, ms) && ByOthers(events, d)
    ensures var t := Run(s, events);
      && OnTheWay(start, t, d, ds, ms) && t.clients[d] == s.clients[d]
      && (AlignedOn(start, t.q, d, t.clients[d], ds) <==> AlignedOn(start, s.q, d, s.clients[d], ds))
  {
    var c := s.clients[d];
    var t := Run(s, events);
    DeviceOf(s, d);
    assert Parented(s.q.jobs) by { PartsOf(s); hide SystemOk; }
    hide SystemOk, Undisturbed, Run, Clean, NoRowOf, Ordered, Parented, HeadsCommitted, RowsKnown, OutboxOwn, BlocksKept, DeviceInv, AlignedOn;
    OthersRun(s, events, d);
    OrderedThrough(s.q, t.q, d, c, ds, ms);
    AheadThrough(start, s.q, t.q, d, c, ds, ms);
    AlignedThrough(start, s.q, t.q, d, c, ds);
    hide Ahead;
    forall i | 0 <= i < |ms|
      ensures OwedHere(t.q, d, c, ds, ms[i])
    {
      assert OwedHere(s.q, d, c, ds, ms[i]);
      hide AtHand, Hashes;
      CommittedFacts(s, d, ms[i]);
      OwedThrough(s.q, t.q, d, c, ds, ms[i]);
    }
  }

  // ---------------------------------------------------------------- where it ends

  /** Every file of the dataset is recorded at the given heads and holds what it records. */
  ghost predicate AtHeads(heads: Queue, c: Client, ds: Dataset) {
    forall k: Key | k.dataset == ds :: Recorded(c, k) == HeadOf(heads, k) && Local(c, k) == RecordedSha(c, k)
  }

  /** With everything received, the device is aligned exactly when it is at the heads. */
  lemma EndsAtHeads(start: Queue, s: System, d: Device, ds: Dataset)
    requires Inv(start) && OnTheWay(start, s, d, ds, [])
    ensures AlignedOn(start, s.q, d, s.clients[d], ds) <==> AtHeads(start, s.clients[d], ds)
  {
    var c := s.clients[d];
    assert Parented(start.jobs) && Headed(start.jobs, start.heads) && Parented(s.q.jobs);
    DeviceOf(s, d);
    hide Inv, SystemOk, DeviceInv, BlocksKept, OutboxOwn, Parented, Headed, HeadsCommitted, AlignedAt;
    forall k: Key | k.dataset == ds
      ensures Local(c, k) == RecordedSha(c, k)
    {
      CleanAt(c, ds, k);
    }
    hide Clean;
    if AlignedOn(start, s.q, d, c, ds) {
      forall k: Key | k.dataset == ds
        ensures Recorded(c, k) == HeadOf(start, k)
      {
        HeadReached(start, s.q, d, c, k);
      }
    }
    if AtHeads(start, c, ds) {
      forall id | id in start.jobs && start.jobs[id].Committed() && start.jobs[id].manifest.key.dataset == ds
        ensures AlignedAt(s.q, d, c, id)
      {
        HistoryRecorded(start, s.q, d, c, ds, id);
      }
    }
  }

  lemma HeadReached(start: Queue, q: Queue, d: Device, c: Client, k: Key)
    requires Parented(start.jobs) && Headed(start.jobs, start.heads) && Parented(q.jobs) && HeadsCommitted(q, c) && RowsKnown(q, c)
    requires NoRowOf(c, k.dataset) && AlignedOn(start, q, d, c, k.dataset) && Ahead(start, q, d, c, k.dataset, [])
    ensures Recorded(c, k) == HeadOf(start, k)
  {
    hide Parented, Upto, Lineage;
    if k in start.heads {
      var t := start.heads[k];
      assert Acknowledged(q, d, t) && q.jobs[t].manifest.key == k;
      NoRowAt(q, c, k.dataset, t);
      assert AlignedAt(q, d, c, t);
      HeadIsRecorded(start, q, c, k);
    }
  }

  /** At a head of the start, every version committed then is recorded. */
  lemma HistoryRecorded(start: Queue, q: Queue, d: Device, c: Client, ds: Dataset, id: JobId)
    requires Parented(start.jobs) && Headed(start.jobs, start.heads) && RowsKnown(q, c) && NoRowOf(c, ds)
    requires Ahead(start, q, d, c, ds, []) && AtHeads(start, c, ds)
    requires id in start.jobs && start.jobs[id].Committed() && start.jobs[id].manifest.key.dataset == ds
    ensures id in q.jobs && AlignedAt(q, d, c, id)
  {
    var k := start.jobs[id].manifest.key;
    assert Acknowledged(q, d, id);
    NoRowAt(q, c, ds, id);
    assert Recorded(c, k) == HeadOf(start, k) == Some(start.heads[k]);
    LineageStable(start.jobs, q.jobs, start.heads[k]);
    hide Lineage, Parented;
  }

  /** A recorded version that was the head in the start, of a file recorded no later than that. */
  lemma HeadIsRecorded(start: Queue, q: Queue, c: Client, k: Key)
    requires Parented(start.jobs) && Headed(start.jobs, start.heads) && Parented(q.jobs) && HeadsCommitted(q, c) && Evolves(start, q)
    requires k in start.heads && start.heads[k] in Upto(q, c, k) && (k in c.files ==> IsCommitted(start, c.files[k]))
    ensures Recorded(c, k) == HeadOf(start, k)
  {
    var t := start.heads[k];
    UptoCommitted(q, c, k, t);
    var r := c.files[k].id;
    hide Lineage;
    LineageMembers(start.jobs, t, r);
    LineageMembers(q.jobs, r, t);
  }

  lemma EvolvesChain(a: Queue, b: Queue, c: Queue)
    requires Evolves(a, b) && Evolves(b, c)
    ensures Evolves(a, c)
  {
  }

  lemma AheadThrough(start: Queue, q: Queue, q': Queue, d: Device, c: Client, ds: Dataset, ms: seq<Manifest>)
    requires Ahead(start, q, d, c, ds, ms) && Undisturbed(q, q', d, c)
    ensures Ahead(start, q', d, c, ds, ms)
  {
    EvolvesChain(start, q, q');
    OrderedThrough(q, q', d, c, ds, ms);
    hide Undisturbed, Evolves, Acknowledged;
  }

  lemma AheadStep(start: Queue, q: Queue, q': Queue, d: Device, c: Client, c': Client, ds: Dataset, ms: seq<Manifest>)
    requires ms != [] && Ahead(start, q, d, c, ds, ms) && AcksOnly(q, q', d, ms[0].id)
    requires c'.files == c.files[ms[0].key := ms[0]]
    ensures Ahead(start, q', d, c', ds, ms[1..])
  {
    hide Evolves, IsCommitted, AcksOnly, Acknowledged;
    AcksFirst(start, q, q', d, ms[0]);
    EvolvesChain(start, q, q');
    assert forall i | 0 <= i < |ms[1..]| :: ms[1..][i] == ms[i + 1];
    forall id | id in start.jobs && start.jobs[id].Committed() && start.jobs[id].manifest.key.dataset == ds
      ensures Acknowledged(q', d, id) || exists i :: 0 <= i < |ms[1..]| && ms[1..][i].id == id
    {
      if !Acknowledged(q, d, id) {
        var i :| 0 <= i < |ms| && ms[i].id == id;
        if i > 0 {
          assert ms[1..][i - 1] == ms[i];
        }
      }
    }
  }

  lemma AcksFirst(start: Queue, q: Queue, q': Queue, d: Device, m: Manifest)
    requires Evolves(start, q) && IsCommitted(start, m) && AcksOnly(q, q', d, m.id)
    ensures Evolves(q, q') && Acknowledged(q', d, m.id)
    ensures forall id :: Acknowledged(q, d, id) ==> Acknowledged(q', d, id)
  {
  }

  /** The rest of the list goes through and ends at the heads. */
  ghost predicate Arrived(start: Queue, s: System, d: Device, ds: Dataset, ms: seq<Manifest>, others: seq<seq<Event>>, policy: Policy)
    requires |others| == |ms|
  {
    && AllSucceed(s, d, ms, others, policy)
    && var e := ReceiveAll(s, d, ms, others);
       d in e.clients && AtHeads(start, e.clients[d], ds)
  }

  /** An aligned device receives the next version of the list. */
  lemma NextSucceeds(start: Queue, s: System, d: Device, ds: Dataset, ms: seq<Manifest>, policy: Policy)
    requires Inv(start) && OnTheWay(start, s, d, ds, ms) && ms != [] && policy.deletes && policy.recycle
    requires AlignedOn(start, s.q, d, s.clients[d], ds)
    ensures Succeeds(s.clients[d], s.q, ms[0], NoChoice, policy)
  {
    NextOnHead(start, s, d, ds, ms);
    assert OwedHere(s.q, d, s.clients[d], ds, ms[0]);
    DeviceOf(s, d);
    hide Inv, SystemOk, Clean, Ordered, Ahead, AtHand, Succeeds, AlignedOn, DeviceInv, HeadsCommitted, OutboxOwn, BlocksKept;
    NoRowAt(s.q, s.clients[d], ds, ms[0].id);
    OnHeadSucceeds(s, d, ds, ms[0], policy);
  }

  lemma OnTheWayDevice(start: Queue, s: System, d: Device, ds: Dataset, ms: seq<Manifest>)
    requires OnTheWay(start, s, d, ds, ms)
    ensures d in s.clients
  {
  }

  lemma ArrivedThen(start: Queue, s: System, d: Device, ds: Dataset, ms: seq<Manifest>, others: seq<seq<Event>>, policy: Policy)
    requires ms != [] && |others| == |ms|
    ensures var t := Run(s, others[0]);
      Arrived(start, s, d, ds, ms, others, policy)
      <==> && d in t.clients && Succeeds(t.clients[d], t.q, ms[0], NoChoice, policy)
           && Arrived(start, ReceiveOne(t, d, ms[0]), d, ds, ms[1..], others[1..], policy)
  {
    hide Run, Succeeds, ReceiveOne, AtHeads;
  }

  /** Whether the rest goes through and ends at the heads is decided by the device's being aligned. */
  ghost predicate Decided(start: Queue, s: System, d: Device, ds: Dataset, ms: seq<Manifest>, others: seq<seq<Event>>, policy: Policy)
    requires |others| == |ms|
  {
    d in s.clients && (Arrived(start, s, d, ds, ms, others, policy) <==> AlignedOn(start, s.q, d, s.clients[d], ds))
  }

  lemma DecidedThen(start: Queue, s: System, d: Device, ds: Dataset, ms: seq<Manifest>, others: seq<seq<Event>>, policy: Policy)
    requires ms != [] && |others| == |ms| && ByOthers(others[0], d)
    requires var t := Run(s, others[0]);
      d in t.clients && Succeeds(t.clients[d], t.q, ms[0], NoChoice, policy) ==>
        Decided(start, ReceiveOne(t, d, ms[0]), d, ds, ms[1..], others[1..], policy)
    requires Inv(start) && OnTheWay(start, s, d, ds, ms) && policy.deletes && policy.recycle
    ensures Decided(start, s, d, ds, ms, others, policy)
  {
    hide Inv, OnTheWay, ByOthers, Arrived, Run, Succeeds, ReceiveOne, AlignedOn;
    var t := Run(s, others[0]);
    OnTheWayDevice(start, s, d, ds, ms);
    OnTheWayThrough(start, s, d, ds, ms, others[0]);
    OnTheWayDevice(start, t, d, ds, ms);
    ArrivedThen(start, s, d, ds, ms, others, policy);
    if Succeeds(t.clients[d], t.q, ms[0], NoChoice, policy) {
      OnTheWayNext(start, t, d, ds, ms, policy);
    } else if AlignedOn(start, t.q, d, t.clients[d], ds) {
      NextSucceeds(start, t, d, ds, ms, policy);
    }
  }

  lemma DecidedNow(start: Queue, s: System, d: Device, ds: Dataset, others: seq<seq<Event>>, policy: Policy)
    requires Inv(start) && OnTheWay(start, s, d, ds, []) && others == []
    ensures Decided(start, s, d, ds, [], others, policy)
  {
    hide Inv, OnTheWay, AtHeads, AlignedOn;
    OnTheWayDevice(start, s, d, ds, []);
    EndsAtHeads(start, s, d, ds);
  }

  /** From any point on the way, the rest is received and ends at the heads if and only if the device is aligned. */
  lemma {:induction false} Arrives(start: Queue, s: System, d: Device, ds: Dataset, ms: seq<Manifest>, others: seq<seq<Event>>, policy: Policy)
    requires |others| == |ms| && (forall i | 0 <= i < |others| :: ByOthers(others[i], d))
    requires Inv(start) && OnTheWay(start, s, d, ds, ms) && policy.deletes && policy.recycle
    ensures Decided(start, s, d, ds, ms, others, policy)
    decreases |ms|
  {
    hide Inv, OnTheWay, ByOthers, Decided, Run, Succeeds, ReceiveOne;
    if ms == [] {
      DecidedNow(start, s, d, ds, others, policy);
    } else {
      var t := Run(s, others[0]);
      OnTheWayThrough(start, s, d, ds, ms, others[0]);
      if d in t.clients && Succeeds(t.clients[d], t.q, ms[0], NoChoice, policy) {
        OnTheWayNext(start, t, d, ds, ms, policy);
        Arrives(start, ReceiveOne(t, d, ms[0]), d, ds, ms[1..], others[1..], policy);
      }
      DecidedThen(start, s, d, ds, ms, others, policy);
    }
  }

  // ---------------------------------------------------------------- pulling

  /** The manifests answered by `pending`. */
  function Answered(q: Queue, ids: seq<JobId>): seq<Manifest>
    requires forall i | 0 <= i < |ids| :: ids[i] in q.jobs
  {
    seq(|ids|, i requires 0 <= i < |ids| => q.jobs[ids[i]].manifest)
  }

  /** A device that may pull: bound, nothing half received, files as recorded. */
  ghost predicate Pullable(s: System, d: Device, ds: Dataset) {
    && SystemOk(s) && d in s.clients && (ds, d) in s.q.bindings
    && Clean(s.clients[d], ds) && NoRowOf(s.clients[d], ds)
  }

  lemma PendingListed(s: System, d: Device, ds: Dataset)
    requires Inv(s.q) && (ds, d) in s.q.bindings
    ensures forall i | 0 <= i < |Pending(s.q, d, ds)| :: Pending(s.q, d, ds)[i] in s.q.jobs
  {
    PendingExact(s.q, d, ds);
  }

  lemma PendingOrdered(q: Queue, d: Device, ds: Dataset)
    requires Inv(q) && (ds, d) in q.bindings
    ensures forall i | 0 <= i < |Pending(q, d, ds)| :: Pending(q, d, ds)[i] in q.jobs
    ensures Ordered(q, d, Answered(q, Pending(q, d, ds)))
  {
    PendingExact(q, d, ds);
    var p := Pending(q, d, ds);
    var ms := Answered(q, p);
    assert forall i | 0 <= i < |p| :: ms[i].id == p[i] by { assert WellFormed(q.jobs); hide Inv, ParentsFirst, Ascending; }
    hide Inv, Pending, Answered;
    forall i | 0 <= i < |ms| && ms[i].parent.Some?
      ensures Acknowledged(q, d, ms[i].parent.value) || exists j :: 0 <= j < i && ms[j].id == ms[i].parent.value
    {
      var parent := q.jobs[p[i]].manifest.parent.value;
      if d !in q.jobs[parent].receipts {
        assert parent in p[..i];
        var j :| 0 <= j < i && p[j] == parent;
        assert ms[j].id == parent;
      }
    }
  }

  lemma PendingOwed(s: System, d: Device, ds: Dataset, i: nat)
    requires Inv(s.q) && d in s.clients && (ds, d) in s.q.bindings && i < |Pending(s.q, d, ds)|
    ensures var id := Pending(s.q, d, ds)[i];
      id in s.q.jobs && Owed(s.q, d, s.q.jobs[id].manifest) && s.q.jobs[id].manifest.key.dataset == ds
  {
    PendingExact(s.q, d, ds);
    var id := Pending(s.q, d, ds)[i];
    assert Lacks(s.q, d, ds, id);
    BoundRecipients(s.q, id, d);
    assert WellFormed(s.q.jobs);
    hide Inv, Pending, Ascending, ParentsFirst;
  }

  /** Receiving what `pending` answered, in order and with any steps of the other devices in between, succeeds throughout and
      records every file of the dataset at the head it had when `pending` was answered, holding exactly its content, if and
      only if the device was aligned. */
  lemma PullConvergesExactly(s: System, d: Device, ds: Dataset, others: seq<seq<Event>>, policy: Policy)
    requires Pullable(s, d, ds) && policy.deletes && policy.recycle
    requires forall i | 0 <= i < |Pending(s.q, d, ds)| :: Pending(s.q, d, ds)[i] in s.q.jobs
    requires forall m | m in Answered(s.q, Pending(s.q, d, ds)) :: AtHand(s.q, s.clients[d], m)
    requires |others| == |Pending(s.q, d, ds)| && forall i | 0 <= i < |others| :: ByOthers(others[i], d)
    ensures var ms := Answered(s.q, Pending(s.q, d, ds)); var e := ReceiveAll(s, d, ms, others);
      (AllSucceed(s, d, ms, others, policy) && d in e.clients && AtHeads(s.q, e.clients[d], ds)) <==> Aligned(s.q, d, s.clients[d], ds)
  {
    hide SystemOk, Honest, FilesTracked, Inv, Pending, Clean, NoRowOf, Ordered, AtHeads, ReceiveAll, AllSucceed, ByOthers, AlignedOn, Ahead, AtHand;
    var ms := Answered(s.q, Pending(s.q, d, ds));
    PartsOf(s);
    PendingOrdered(s.q, d, ds);
    forall i | 0 <= i < |ms|
      ensures OwedHere(s.q, d, s.clients[d], ds, ms[i])
    {
      PendingOwed(s, d, ds, i);
    }
    hide OwedHere;
    PendingAhead(s, d, ds);
    Arrives(s.q, s, d, ds, ms, others, policy);
  }

  /** A pull of an aligned device converges. */
  lemma PullConverges(s: System, d: Device, ds: Dataset, others: seq<seq<Event>>, policy: Policy)
    requires Pullable(s, d, ds) && Aligned(s.q, d, s.clients[d], ds) && policy.deletes && policy.recycle
    requires forall i | 0 <= i < |Pending(s.q, d, ds)| :: Pending(s.q, d, ds)[i] in s.q.jobs
    requires forall m | m in Answered(s.q, Pending(s.q, d, ds)) :: AtHand(s.q, s.clients[d], m)
    requires |others| == |Pending(s.q, d, ds)| && forall i | 0 <= i < |others| :: ByOthers(others[i], d)
    ensures var ms := Answered(s.q, Pending(s.q, d, ds));
      && AllSucceed(s, d, ms, others, policy)
      && var e := ReceiveAll(s, d, ms, others);
         d in e.clients && AtHeads(s.q, e.clients[d], ds)
  {
    hide SystemOk, Clean, NoRowOf, Aligned, ByOthers, AllSucceed, ReceiveAll, AtHeads, AtHand, Pending;
    PullConvergesExactly(s, d, ds, others, policy);
  }

  lemma AnsweredAt(q: Queue, p: seq<JobId>)
    requires forall i | 0 <= i < |p| :: p[i] in q.jobs
    requires WellFormed(q.jobs)
    ensures |Answered(q, p)| == |p|
    ensures forall i | 0 <= i < |p| :: Answered(q, p)[i] == q.jobs[p[i]].manifest && Answered(q, p)[i].id == p[i]
  {
    hide ValidManifest, Sizes;
  }

  lemma PendingAhead(s: System, d: Device, ds: Dataset)
    requires Pullable(s, d, ds)
    requires forall i | 0 <= i < |Pending(s.q, d, ds)| :: Pending(s.q, d, ds)[i] in s.q.jobs
    ensures Ahead(s.q, s.q, d, s.clients[d], ds, Answered(s.q, Pending(s.q, d, ds)))
  {
    var p := Pending(s.q, d, ds);
    assert Inv(s.q) && WellFormed(s.q.jobs) by { PartsOf(s); hide SystemOk; }
    DeviceOf(s, d);
    hide SystemOk, Inv, Pending, DeviceInv, RowsKnown, OutboxOwn, BlocksKept, Clean, NoRowOf, Answered, WellFormed;
    PendingExact(s.q, d, ds);
    hide Ascending, ParentsFirst;
    AnsweredAt(s.q, p);
    AheadFrom(s.q, d, s.clients[d], ds, p, Answered(s.q, p));
  }

  lemma AheadFrom(q: Queue, d: Device, c: Client, ds: Dataset, p: seq<JobId>, ms: seq<Manifest>)
    requires HeadsCommitted(q, c) && |ms| == |p|
    requires forall id :: id in p <==> Lacks(q, d, ds, id)
    requires forall i | 0 <= i < |p| :: p[i] in q.jobs && ms[i] == q.jobs[p[i]].manifest && ms[i].id == p[i]
    ensures Ahead(q, q, d, c, ds, ms)
  {
    forall i | 0 <= i < |ms|
      ensures IsCommitted(q, ms[i])
    {
      assert Lacks(q, d, ds, p[i]);
    }
    forall id | id in q.jobs && q.jobs[id].Committed() && q.jobs[id].manifest.key.dataset == ds
      ensures Acknowledged(q, d, id) || exists i :: 0 <= i < |ms| && ms[i].id == id
    {
      if !Acknowledged(q, d, id) {
        assert Lacks(q, d, ds, id);
        var i :| 0 <= i < |p| && p[i] == id;
        assert ms[i].id == id;
      }
    }
  }

  // ---------------------------------------------------------------- a reception left over from an earlier session

  /** Its version is committed and addressed to the device; once received it is held, and so is what was acknowledged. */
  lemma RowFacts(s: System, d: Device, ds: Dataset, id: JobId)
    requires SystemOk(s) && d in s.clients && (ds, d) in s.q.bindings
    requires id in s.clients[d].inbox && s.clients[d].inbox[id].manifest.key.dataset == ds
    ensures var c := s.clients[d]; var m := c.inbox[id].manifest;
      && m.id == id && IsCommitted(s.q, m) && c.role == d && d in s.q.jobs[id].recipients
      && (c.inbox[id].phase.Applied? ==> Holding(c, m))
      && (Owed(s.q, d, m) || Holding(c, m))
  {
    var c := s.clients[d];
    DeviceOf(s, d);
    PartsOf(s);
    hide Inv, Honest, FilesTracked, SystemOk, DeviceInv, HeadsCommitted, OutboxOwn, Holding, Truthful;
    BoundRecipients(s.q, id, d);
    CommittedFacts(s, d, c.inbox[id].manifest);
  }

  /** A row is worked off exactly when its version was applied before or follows the recorded head. */
  lemma RowSucceeds(s: System, d: Device, ds: Dataset, id: JobId, policy: Policy)
    requires SystemOk(s) && d in s.clients && (ds, d) in s.q.bindings && Clean(s.clients[d], ds) && policy.deletes && policy.recycle
    requires id in s.clients[d].inbox && s.clients[d].inbox[id].manifest.key.dataset == ds
    requires var m := s.clients[d].inbox[id].manifest; Owed(s.q, d, m) ==> AtHand(s.q, s.clients[d], m)
    ensures var c := s.clients[d]; var m := c.inbox[id].manifest;
      Succeeds(c, s.q, m, NoChoice, policy) <==> c.inbox[id].phase.Applied? || m.parent == Recorded(c, m.key)
  {
    hide SystemOk, Clean, Owed, AtHand, Succeeds, Holding, Truthful;
    var c := s.clients[d];
    var m := c.inbox[id].manifest;
    RowFacts(s, d, ds, id);
    if c.inbox[id].phase.Applied? {
      AppliedSucceeds(s, d, m, policy);
    } else if m.parent == Recorded(c, m.key) {
      assert AtHand(s.q, c, m) by { if Holding(c, m) { HeldAtHand(s.q, c, m); } }
      OnHeadSucceeds(s, d, ds, m, policy);
    } else if Succeeds(c, s.q, m, NoChoice, policy) {
      SucceedsOnHead(c, s.q, m, policy);
    }
  }

  lemma HeldAtHand(q: Queue, c: Client, m: Manifest)
    requires Holding(c, m)
    ensures AtHand(q, c, m)
  {
  }

  lemma AppliedSucceeds(s: System, d: Device, m: Manifest, policy: Policy)
    requires SystemOk(s) && d in s.clients && IsCommitted(s.q, m) && Journal(s.clients[d], m, Applied) && Holding(s.clients[d], m)
    ensures Succeeds(s.clients[d], s.q, m, NoChoice, policy)
  {
    hide SystemOk, Truthful, Receipt, Hashes, Recuts, Rebuilds;
    CommittedFacts(s, d, m);
    CommittedReceipt(s.q, d, m);
    TruthfulRebuilds(m);
    Recovery.Confirms(s.clients[d], s.q, m);
  }

  /** A row worked off leaves the files as recorded and the device as much aligned as it was. */
  lemma RowFirst(s: System, d: Device, ds: Dataset, id: JobId, policy: Policy)
    requires SystemOk(s) && d in s.clients && (ds, d) in s.q.bindings && Clean(s.clients[d], ds) && policy.deletes && policy.recycle
    requires id in s.clients[d].inbox && s.clients[d].inbox[id].manifest.key.dataset == ds
    requires var m := s.clients[d].inbox[id].manifest; Owed(s.q, d, m) ==> AtHand(s.q, s.clients[d], m)
    ensures var c := s.clients[d]; var m := c.inbox[id].manifest; var t := ReceiveOne(s, d, m);
      && (Succeeds(c, s.q, m, NoChoice, policy) <==> c.inbox[id].phase.Applied? || m.parent == Recorded(c, m.key))
      && (Succeeds(c, s.q, m, NoChoice, policy) ==>
            && SystemOk(t) && d in t.clients && (ds, d) in t.q.bindings && Clean(t.clients[d], ds)
            && t.clients[d].inbox == c.inbox - {id}
            && (Aligned(t.q, d, t.clients[d], ds) <==> Aligned(s.q, d, c, ds)))
  {
    hide SystemOk, Clean, Owed, AtHand, Succeeds, ReceiveOne, Aligned;
    RowSucceeds(s, d, ds, id, policy);
    if Succeeds(s.clients[d], s.q, s.clients[d].inbox[id].manifest, NoChoice, policy) {
      RowLeaves(s, d, ds, id);
    }
  }

  lemma RowLeaves(s: System, d: Device, ds: Dataset, id: JobId)
    requires SystemOk(s) && d in s.clients && (ds, d) in s.q.bindings && Clean(s.clients[d], ds)
    requires id in s.clients[d].inbox && s.clients[d].inbox[id].manifest.key.dataset == ds
    requires var c := s.clients[d]; c.inbox[id].phase.Applied? || c.inbox[id].manifest.parent == Recorded(c, c.inbox[id].manifest.key)
    ensures var c := s.clients[d]; var m := c.inbox[id].manifest; var t := ReceiveOne(s, d, m);
      && SystemOk(t) && d in t.clients && (ds, d) in t.q.bindings && Clean(t.clients[d], ds)
      && t.clients[d].inbox == c.inbox - {id} && t.clients[d].outbox == c.outbox && t.clients[d].chose == c.chose && c.cache <= t.clients[d].cache
      && Receives(s.q, t.q, d, c, t.clients[d], m) && KeepsOthers(s.q, t.q, d, id)
      && t.q.heads == s.q.heads
      && (Aligned(t.q, d, t.clients[d], ds) <==> Aligned(s.q, d, c, ds))
  {
    hide SystemOk, Clean, Received, Acknowledge, AlignedOn, AcksOnly, KeepsOthers, HeadsCommitted, Parented, Holding, Owed;
    var c := s.clients[d];
    var m := c.inbox[id].manifest;
    var t := ReceiveOne(s, d, m);
    RowFacts(s, d, ds, id);
    ReceptionFacts(s, d, m);
    BrokerRest(s.q, d, m);
    ParentedHeads(s, d);
    AlignedReceived(s.q, s.q, t.q, d, c, t.clients[d], m, ds);
    AlignedSameJobs(s.q, t.q, d, c, t.clients[d], m, ds);
    if c.inbox[id].phase.Applied? {
      CleanSame(c, t.clients[d], ds);
    } else {
      CleanAfter(c, t.clients[d], ds, m);
    }
  }

  lemma ParentedHeads(s: System, d: Device)
    requires SystemOk(s) && d in s.clients
    ensures Parented(s.q.jobs) && HeadsCommitted(s.q, s.clients[d])
  {
    DeviceOf(s, d);
    assert Parented(s.q.jobs) by { PartsOf(s); hide SystemOk; }
    hide SystemOk, DeviceInv, RowsKnown, OutboxOwn, BlocksKept, HeadsCommitted, Parented;
  }

  /** A reception commits nothing. */
  lemma AlignedSameJobs(q: Queue, q': Queue, d: Device, c: Client, c': Client, m: Manifest, ds: Dataset)
    requires Receives(q, q', d, c, c', m)
    ensures AlignedOn(q', q', d, c', ds) <==> AlignedOn(q, q', d, c', ds)
  {
    hide AlignedAt;
  }

  lemma BrokerRest(q: Queue, d: Device, m: Manifest)
    ensures var q' := After(q, Acknowledge(q, d, m.id, ManifestHash(m))); q'.bindings == q.bindings && q'.heads == q.heads
  {
  }

  lemma CleanSame(c: Client, f: Client, ds: Dataset)
    requires Clean(c, ds) && f.tree == c.tree && f.files == c.files
    ensures Clean(f, ds)
  {
  }
}
