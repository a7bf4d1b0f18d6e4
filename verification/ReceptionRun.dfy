/** A reception, up to any point where power may be lost, is a run of steps of the system. */
module ReceptionRun {
  import opened Base
  import opened BrokerState
  import opened BrokerGuarantees
  import opened ClientState
  import opened Receiving
  import opened Recovery
  import opened SyncSystem

  function With(s: System, d: Device, c: Client): System {
    System(s.q, s.clients[d := c])
  }

  // ---------------------------------------------------------------- the steps

  function SeedEvents(d: Device, blocks: seq<Bytes>): seq<Event> {
    if blocks == [] then [] else SeedEvents(d, blocks[..|blocks| - 1]) + [Caches(d, blocks[|blocks| - 1])]
  }

  function JournalEvents(c: Client, d: Device, m: Manifest): seq<Event> {
    if m.id in c.inbox then [] else [Journals(d, m)]
  }

  function FetchEvents(cache: set<Hash>, d: Device, chunks: seq<Chunk>): seq<Event> {
    if chunks == [] then []
    else
      var last := |chunks| - 1;
      FetchEvents(cache, d, chunks[..last])
      + if chunks[last].hash in cache + Hashes(chunks[..last]) then [] else [Downloads(d, chunks[last].hash)]
  }

  function SettleEvents(c: Client, d: Device, m: Manifest, choice: Choice): seq<Event> {
    if Stays(c, m, choice) then [] else [Settles(d, m.id)]
  }

  function UpToJournal(c: Client, d: Device, m: Manifest): seq<Event> {
    SeedEvents(d, Seeds(c, m)) + JournalEvents(c, d, m)
  }

  function UpToMark(c: Client, d: Device, m: Manifest): seq<Event> {
    UpToJournal(c, d, m) + FetchEvents(Seeded(c, Seeds(c, m)).cache, d, m.chunks) + [Marks(d, m.id)]
  }

  function UpToRecord(c: Client, d: Device, m: Manifest, choice: Choice): seq<Event> {
    if Journal(c, m, Applied) then [] else UpToMark(c, d, m) + SettleEvents(c, d, m, choice) + [Accepts(d, m.id)]
  }

  function UpTo(c: Client, d: Device, m: Manifest, choice: Choice, p: Crash): seq<Event>
    requires Possible(c, m, p)
  {
    match p
    case Seeding(n) => SeedEvents(d, Seeds(c, m)[..n])
    case Gathering(n) => UpToJournal(c, d, m) + FetchEvents(Seeded(c, Seeds(c, m)).cache, d, m.chunks[..n])
    case Fetching(n, bytes) =>
      UpToJournal(c, d, m) + FetchEvents(Seeded(c, Seeds(c, m)).cache, d, m.chunks[..n]) + [SavesPart(d, m.chunks[n].hash, bytes)]
    case Marking => UpToMark(c, d, m)
    case Settling => UpToMark(c, d, m) + SettleEvents(c, d, m, choice)
    case Recording => UpToRecord(c, d, m, choice)
    case Receipting => UpToRecord(c, d, m, choice) + [Confirms(d, m.id)]
    case Collecting => UpToRecord(c, d, m, choice) + [Confirms(d, m.id)] + [Asks(d, CollectRequest)]
  }

  function Reception(c: Client, d: Device, m: Manifest, choice: Choice): seq<Event> {
    UpTo(c, d, m, choice, Collecting) + [Drops(d, m.id)]
  }

  /** What is known of a version when its reception starts: journaled, or committed and answered by `pending`. */
  ghost predicate Receivable(s: System, d: Device, m: Manifest) {
    && d in s.clients && s.clients[d].role == d
    && if m.id in s.clients[d].inbox then s.clients[d].inbox[m.id].manifest == m
       else IsCommitted(s.q, m) && (s.clients[d].chose || (d !in s.q.jobs[m.id].receipts && NoRowOf(s.clients[d], m.key.dataset)))
  }

  /** The version is the next one of its file, unless an explicit choice lifted that test. */
  predicate Entitled(c: Client, m: Manifest) {
    c.chose || m.parent == Recorded(c, m.key)
  }

  // ---------------------------------------------------------------- one phase after the other

  lemma Extend(s: System, a: seq<Event>, e: Event)
    ensures Run(s, a + [e]) == Step(Run(s, a), e)
  {
    RunAppend(s, a, [e]);
    assert Run(Run(s, a), [e]) == Run(Step(Run(s, a), e), []);
  }

  lemma {:induction false} SeedRun(s: System, d: Device, blocks: seq<Bytes>)
    requires d in s.clients
    ensures Run(s, SeedEvents(d, blocks)) == With(s, d, Seeded(s.clients[d], blocks))
  {
    var c := s.clients[d];
    if blocks == [] {
      assert Seeded(c, blocks) == c;
      assert s.clients[d := c] == s.clients;
    } else {
      var n := |blocks| - 1;
      SeedRun(s, d, blocks[..n]);
      Extend(s, SeedEvents(d, blocks[..n]), Caches(d, blocks[n]));
      SeededMore(c, blocks);
    }
  }

  lemma SeededMore(c: Client, blocks: seq<Bytes>)
    requires blocks != []
    ensures Seeded(c, blocks) == WithBlock(Seeded(c, blocks[..|blocks| - 1]), Sha256(blocks[|blocks| - 1]))
  {
    var n := |blocks| - 1;
    assert (set i | 0 <= i < |blocks| :: Sha256(blocks[i])) == (set i | 0 <= i < n :: Sha256(blocks[..n][i])) + {Sha256(blocks[n])};
  }

  lemma {:induction false} FetchRun(s: System, d: Device, chunks: seq<Chunk>)
    requires d in s.clients
    ensures Run(s, FetchEvents(s.clients[d].cache, d, chunks)) == With(s, d, Fetched(s.clients[d], chunks))
  {
    var c := s.clients[d];
    if chunks == [] {
      FetchedNone(c);
      assert s.clients[d := c] == s.clients;
    } else {
      var n := |chunks| - 1;
      FetchRun(s, d, chunks[..n]);
      FetchedMore(c, chunks);
      var before := FetchEvents(c.cache, d, chunks[..n]);
      if chunks[n].hash in c.cache + Hashes(chunks[..n]) {
        assert before + [] == before;
      } else {
        Extend(s, before, Downloads(d, chunks[n].hash));
      }
    }
  }

  lemma JournalRun(s: System, d: Device, m: Manifest)
    requires Receivable(s, d, m) && Entitled(s.clients[d], m)
    ensures Run(s, JournalEvents(s.clients[d], d, m)) == With(s, d, Journaled(s.clients[d], m))
  {
    var c := s.clients[d];
    if m.id in c.inbox {
      assert s.clients[d := c] == s.clients;
    } else {
      Extend(s, [], Journals(d, m));
      assert [] + [Journals(d, m)] == [Journals(d, m)];
    }
  }

  lemma SeededEntitled(s: System, d: Device, m: Manifest, blocks: seq<Bytes>)
    requires Receivable(s, d, m) && Entitled(s.clients[d], m)
    ensures var t := With(s, d, Seeded(s.clients[d], blocks)); Receivable(t, d, m) && Entitled(t.clients[d], m)
    ensures JournalEvents(Seeded(s.clients[d], blocks), d, m) == JournalEvents(s.clients[d], d, m)
  {
    hide IsCommitted;
  }

  lemma ToJournal(s: System, d: Device, m: Manifest)
    requires Receivable(s, d, m) && Entitled(s.clients[d], m)
    ensures var c := s.clients[d];
      Run(s, UpToJournal(c, d, m)) == With(s, d, Journaled(Seeded(c, Seeds(c, m)), m))
  {
    assert d in s.clients;
    hide Run, Seeds, Seeded, SeedEvents, JournalEvents, Journaled, Receivable, Entitled;
    var c := s.clients[d];
    var g := Seeded(c, Seeds(c, m));
    SeedRun(s, d, Seeds(c, m));
    SeededEntitled(s, d, m, Seeds(c, m));
    RunAppend(s, SeedEvents(d, Seeds(c, m)), JournalEvents(c, d, m));
    JournalRun(With(s, d, g), d, m);
    WithTwice(s, d, g, Journaled(g, m));
  }

  lemma ToFetch(s: System, d: Device, m: Manifest, n: nat)
    requires Receivable(s, d, m) && Entitled(s.clients[d], m) && n <= |m.chunks|
    ensures var c := s.clients[d];
      Run(s, UpToJournal(c, d, m) + FetchEvents(Seeded(c, Seeds(c, m)).cache, d, m.chunks[..n]))
      == With(s, d, Fetched(Journaled(Seeded(c, Seeds(c, m)), m), m.chunks[..n]))
  {
    assert d in s.clients;
    hide Seeds, UpToJournal, FetchEvents, Fetched, Seeded, Run, Receivable, Journaled;
    var c := s.clients[d];
    ToJournal(s, d, m);
    var j := Journaled(Seeded(c, Seeds(c, m)), m);
    var t := With(s, d, j);
    RunAppend(s, UpToJournal(c, d, m), FetchEvents(j.cache, d, m.chunks[..n]));
    FetchRun(t, d, m.chunks[..n]);
    JournaledCache(Seeded(c, Seeds(c, m)), m);
    WithTwice(s, d, j, Fetched(j, m.chunks[..n]));
  }

  lemma JournaledCache(c: Client, m: Manifest)
    ensures Journaled(c, m).cache == c.cache
  {
  }

  lemma WithTwice(s: System, d: Device, a: Client, b: Client)
    requires d in s.clients
    ensures With(With(s, d, a), d, b) == With(s, d, b)
  {
    assert s.clients[d := a][d := b] == s.clients[d := b];
  }

  predicate Row(c: Client, m: Manifest) {
    m.id in c.inbox && c.inbox[m.id].manifest == m
  }

  lemma MarkStep(s: System, d: Device, c: Client, m: Manifest)
    requires d in s.clients && Row(c, m) && !Journal(c, m, Applied) && Holding(c, m)
    ensures Step(With(s, d, c), Marks(d, m.id)) == With(s, d, Marked(c, m.id))
  {
    WithTwice(s, d, c, Marked(c, m.id));
  }

  lemma SettleStep(s: System, d: Device, c: Client, m: Manifest)
    requires d in s.clients && Row(c, m) && Journal(c, m, Ready)
    ensures Step(With(s, d, c), Settles(d, m.id)) == With(s, d, Replaced(c, m))
  {
    hide Replaced;
    WithTwice(s, d, c, Replaced(c, m));
  }

  lemma AcceptStep(s: System, d: Device, c: Client, m: Manifest)
    requires d in s.clients && Row(c, m) && Journal(c, m, Ready) && Entitled(c, m)
    ensures Step(With(s, d, c), Accepts(d, m.id)) == With(s, d, Accepted(c, m))
  {
    WithTwice(s, d, c, Accepted(c, m));
  }

  lemma SaveStep(s: System, d: Device, c: Client, h: Hash, n: nat)
    requires d in s.clients && n <= |h.preimage|
    ensures Step(With(s, d, c), SavesPart(d, h, n)) == With(s, d, WithPartial(c, h, n))
  {
    WithTwice(s, d, c, WithPartial(c, h, n));
  }

  lemma ConfirmStep(s: System, d: Device, c: Client, m: Manifest)
    requires d in s.clients && Row(c, m) && Journal(c, m, Applied)
    ensures Step(With(s, d, c), Confirms(d, m.id))
         == System(After(s.q, Receipt(s.q, d, m.id, ManifestHash(m))), s.clients[d := c])
  {
    hide Receipt;
    WithTwice(s, d, c, c);
  }

  lemma CollectStep(s: System, d: Device)
    requires d in s.clients
    ensures Step(s, Asks(d, CollectRequest)) == System(Gc(s.q), s.clients)
  {
    hide Gc;
    assert s.clients[d := s.clients[d]] == s.clients;
  }

  lemma DropStep(s: System, d: Device, c: Client, m: Manifest)
    requires d in s.clients && Row(c, m) && Journal(c, m, Applied) && m.id in s.q.jobs && d in s.q.jobs[m.id].receipts
    ensures Step(With(s, d, c), Drops(d, m.id)) == With(s, d, Dropped(c, m.id))
  {
    WithTwice(s, d, c, Dropped(c, m.id));
  }

  lemma FetchedRow(s: System, d: Device, m: Manifest)
    requires Receivable(s, d, m) && !Journal(s.clients[d], m, Applied)
    ensures var c := s.clients[d]; var f := Fetched(Journaled(Seeded(c, Seeds(c, m)), m), m.chunks);
      Row(f, m) && !Journal(f, m, Applied) && Holding(f, m)
  {
    hide Seeds, IsCommitted, NoRowOf;
  }

  lemma ToMark(s: System, d: Device, m: Manifest)
    requires Receivable(s, d, m) && Entitled(s.clients[d], m) && !Journal(s.clients[d], m, Applied)
    ensures var c := s.clients[d]; Run(s, UpToMark(c, d, m)) == With(s, d, Readied(c, m))
  {
    var c := s.clients[d];
    ToFetch(s, d, m, |m.chunks|);
    assert m.chunks[..|m.chunks|] == m.chunks;
    FetchedRow(s, d, m);
    Extend(s, UpToJournal(c, d, m) + FetchEvents(Seeded(c, Seeds(c, m)).cache, d, m.chunks), Marks(d, m.id));
    hide Seeds, UpToJournal, FetchEvents, Seeded, Fetched, Journaled, Holding, Step, Run, Receivable;
    MarkStep(s, d, Fetched(Journaled(Seeded(c, Seeds(c, m)), m), m.chunks), m);
  }

  lemma ReadiedRow(s: System, d: Device, m: Manifest)
    requires Receivable(s, d, m)
    ensures var r := Readied(s.clients[d], m); Row(r, m) && Journal(r, m, Ready) && r.files == s.clients[d].files && r.chose == s.clients[d].chose
  {
    ReadiedForm(s.clients[d], m);
    hide Readied, IsCommitted, NoRowOf;
  }

  lemma ToSettle(s: System, d: Device, m: Manifest, choice: Choice)
    requires Receivable(s, d, m) && Entitled(s.clients[d], m) && !Journal(s.clients[d], m, Applied)
    ensures var c := s.clients[d];
      Run(s, UpToMark(c, d, m) + SettleEvents(c, d, m, choice)) == With(s, d, Settled(Readied(c, m), m, Stays(c, m, choice)))
  {
    var c := s.clients[d];
    ToMark(s, d, m);
    ReadiedRow(s, d, m);
    hide UpToMark, Readied, Step, Run, Receivable, Already, Stays, Replaced;
    if Stays(c, m, choice) {
      assert UpToMark(c, d, m) + [] == UpToMark(c, d, m);
    } else {
      Extend(s, UpToMark(c, d, m), Settles(d, m.id));
      SettleStep(s, d, Readied(c, m), m);
    }
  }

  lemma ToRecord(s: System, d: Device, m: Manifest, choice: Choice)
    requires Receivable(s, d, m) && (Journal(s.clients[d], m, Applied) || Entitled(s.clients[d], m))
    ensures var c := s.clients[d]; var a := if Journal(c, m, Applied) then c else Applying(c, m, choice);
      Run(s, UpToRecord(c, d, m, choice)) == With(s, d, a) && Row(a, m) && Journal(a, m, Applied)
  {
    var c := s.clients[d];
    if Journal(c, m, Applied) {
      assert s.clients[d := c] == s.clients;
    } else {
      hide UpToMark, SettleEvents, Readied, Step, Run, Receivable, Already, Stays, Settled, Accepted;
      ToSettle(s, d, m, choice);
      ReadiedRow(s, d, m);
      Extend(s, UpToMark(c, d, m) + SettleEvents(c, d, m, choice), Accepts(d, m.id));
      SettledRow(c, m, choice);
      AcceptStep(s, d, Settled(Readied(c, m), m, Stays(c, m, choice)), m);
      AcceptedRow(Settled(Readied(c, m), m, Stays(c, m, choice)), m);
    }
  }

  lemma AcceptedRow(t: Client, m: Manifest)
    requires Row(t, m)
    ensures Row(Accepted(t, m), m) && Journal(Accepted(t, m), m, Applied)
  {
  }

  lemma SettledRow(c: Client, m: Manifest, choice: Choice)
    ensures var r := Readied(c, m); var t := Settled(r, m, Stays(c, m, choice));
      t.inbox == r.inbox && t.files == r.files && t.chose == r.chose
  {
    hide Readied, Already, Stays;
  }

  /** Every state an interrupted reception can leave behind is reached by steps of the system. */
  lemma InterruptionIsRun(s: System, d: Device, m: Manifest, choice: Choice, p: Crash)
    requires Receivable(s, d, m) && Possible(s.clients[d], m, p)
    requires Journal(s.clients[d], m, Applied) || Entitled(s.clients[d], m)
    requires p.Collecting? ==> Receipt(s.q, d, m.id, ManifestHash(m)).Done?
    ensures var c := s.clients[d];
      Run(s, UpTo(c, d, m, choice, p)) == System(InterruptedBy(c, s.q, m, p), s.clients[d := Interrupted(c, m, choice, p)])
  {
    var c := s.clients[d];
    hide Run, Readied, UpToMark, UpToJournal, UpToRecord, SettleEvents, FetchEvents, SeedEvents, Seeds, Seeded, Applying, Receipt, Gc;
    hide Fetched, Journaled, Settled;
    match p
    case Seeding(n) => SeedRun(s, d, Seeds(c, m)[..n]);
    case Gathering(n) => ToFetch(s, d, m, n);
    case Fetching(n, bytes) => ToPartial(s, d, m, choice, n, bytes);
    case Marking => ToMark(s, d, m);
    case Settling => ToSettle(s, d, m, choice);
    case Recording => ToRecord(s, d, m, choice);
    case Receipting => ToReceipt(s, d, m, choice);
    case Collecting => ToCollect(s, d, m, choice);
  }

  /** A whole reception is a run of the system. */
  lemma ReceptionIsRun(s: System, d: Device, m: Manifest, choice: Choice)
    requires Receivable(s, d, m) && Receipt(s.q, d, m.id, ManifestHash(m)).Done?
    requires Journal(s.clients[d], m, Applied) || Entitled(s.clients[d], m)
    ensures var c := s.clients[d];
      Run(s, Reception(c, d, m, choice)) == System(ReceivedBy(c, s.q, m), s.clients[d := Received(c, m, choice)])
  {
    hide Run, Step, UpToRecord, Applying, Receipt, Gc;
    var c := s.clients[d];
    var a := if Journal(c, m, Applied) then c else Applying(c, m, choice);
    ToRecord(s, d, m, choice);
    ToCollect(s, d, m, choice);
    Extend(s, UpTo(c, d, m, choice, Collecting), Drops(d, m.id));
    ReceiptKept(s.q, d, m);
    DropStep(System(ReceivedBy(c, s.q, m), s.clients), d, a, m);
  }

  lemma ReceiptKept(q: Queue, d: Device, m: Manifest)
    requires Receipt(q, d, m.id, ManifestHash(m)).Done?
    ensures var q' := Gc(Receipt(q, d, m.id, ManifestHash(m)).after); m.id in q'.jobs && d in q'.jobs[m.id].receipts
  {
  }

  lemma ToPartial(s: System, d: Device, m: Manifest, choice: Choice, n: nat, bytes: nat)
    requires Receivable(s, d, m) && Entitled(s.clients[d], m) && Possible(s.clients[d], m, Fetching(n, bytes))
    ensures var c := s.clients[d];
      Run(s, UpTo(c, d, m, choice, Fetching(n, bytes))) == With(s, d, Interrupted(c, m, choice, Fetching(n, bytes)))
  {
    var c := s.clients[d];
    ToFetch(s, d, m, n);
    Extend(s, UpToJournal(c, d, m) + FetchEvents(Seeded(c, Seeds(c, m)).cache, d, m.chunks[..n]), SavesPart(d, m.chunks[n].hash, bytes));
    hide UpToJournal, FetchEvents, Seeds, Seeded, Journaled, Fetched, Step, Run, Receivable;
    SaveStep(s, d, Fetched(Journaled(Seeded(c, Seeds(c, m)), m), m.chunks[..n]), m.chunks[n].hash, bytes);
  }

  lemma ToReceipt(s: System, d: Device, m: Manifest, choice: Choice)
    requires Receivable(s, d, m) && (Journal(s.clients[d], m, Applied) || Entitled(s.clients[d], m))
    ensures var c := s.clients[d]; var a := if Journal(c, m, Applied) then c else Applying(c, m, choice);
      Run(s, UpToRecord(c, d, m, choice) + [Confirms(d, m.id)])
      == System(After(s.q, Receipt(s.q, d, m.id, ManifestHash(m))), s.clients[d := a])
  {
    var c := s.clients[d];
    ToRecord(s, d, m, choice);
    Extend(s, UpToRecord(c, d, m, choice), Confirms(d, m.id));
    hide UpToRecord, Applying, Step, Run, Receipt;
    ConfirmStep(s, d, if Journal(c, m, Applied) then c else Applying(c, m, choice), m);
  }

  lemma ToCollect(s: System, d: Device, m: Manifest, choice: Choice)
    requires Receivable(s, d, m) && (Journal(s.clients[d], m, Applied) || Entitled(s.clients[d], m))
    ensures var c := s.clients[d]; var a := if Journal(c, m, Applied) then c else Applying(c, m, choice);
      Run(s, UpToRecord(c, d, m, choice) + [Confirms(d, m.id)] + [Asks(d, CollectRequest)])
      == System(Gc(After(s.q, Receipt(s.q, d, m.id, ManifestHash(m)))), s.clients[d := a])
  {
    var c := s.clients[d];
    ToReceipt(s, d, m, choice);
    Extend(s, UpToRecord(c, d, m, choice) + [Confirms(d, m.id)], Asks(d, CollectRequest));
    hide UpToRecord, Applying, Step, Run, Receipt, Gc;
    CollectStep(System(After(s.q, Receipt(s.q, d, m.id, ManifestHash(m))),
                       s.clients[d := if Journal(c, m, Applied) then c else Applying(c, m, choice)]), d);
  }
}
