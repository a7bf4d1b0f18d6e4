/** An interrupted reception, as part of a run in which the other devices go on meanwhile. */
module RecoveryRun {
  import opened Base
  import opened BrokerState
  import opened BrokerInvariants
  import opened BrokerGuarantees
  import opened ClientState
  import opened Receiving
  import opened Recovery
  import opened SyncSystem
  import opened SyncInvariants
  import opened SyncGuarantees
  import opened ReceptionRun
  import opened Interference
  import Convergence

  /** The device's receipts are what they were. */
  ghost predicate UnmovedReceipts(q: Queue, q': Queue, d: Device) {
    forall id | id in q'.jobs && d in q'.jobs[id].receipts :: id in q.jobs && d in q.jobs[id].receipts
  }

  /** What others do leaves the broker serving each block that a listed device lacks of a version it has not acknowledged. */
  lemma ServesThrough(q: Queue, q': Queue, d: Device, c: Client, m: Manifest)
    requires IsCommitted(q, m) && d in q.jobs[m.id].recipients && (d in q.jobs[m.id].receipts ==> Holding(c, m))
    requires Retains(q, q', d) && UnmovedReceipts(q, q', d) && ReceiptsBacked(q'.jobs, q'.inventory)
    requires (forall h | h in q.chunks :: q.chunks[h] == h.preimage) && forall h | h in q'.chunks :: q'.chunks[h] == h.preimage
    ensures StillServes(q, q', c.(role := d), m)
  {
    assert IsCommitted(q', m);
    Convergence.CommittedReceipt(q', d, m);
    forall i | 0 <= i < |m.chunks| && m.chunks[i].hash !in c.cache && Served(q, m.id, m.chunks[i].hash)
      ensures Served(q', m.id, m.chunks[i].hash) && q'.chunks[m.chunks[i].hash] == q.chunks[m.chunks[i].hash]
    {
      SomeHash(m.chunks, i);
      assert d !in q'.jobs[m.id].receipts && d in q'.jobs[m.id].recipients;
    }
    hide Receipt;
  }

  lemma TrueChunks(s: System)
    requires SystemOk(s)
    ensures ReceiptsBacked(s.q.jobs, s.q.inventory) && forall h | h in s.q.chunks :: s.q.chunks[h] == h.preimage
  {
    PartsOf(s);
    assert ReceiptsBacked(s.q.jobs, s.q.inventory) by { hide SystemOk; }
    hide SystemOk, Inv, ReceiptsBacked, Honest;
  }

  /** The state left by an interrupted reception, and then steps of other devices. */
  ghost function AfterOthers(s: System, d: Device, m: Manifest, choice: Choice, p: Crash, others: seq<Event>): System
    requires d in s.clients && Possible(s.clients[d], m, p)
  {
    Run(Run(s, UpTo(s.clients[d], d, m, choice, p)), others)
  }

  /** Power is lost anywhere in a reception, the other devices take any steps, and the reception is made again: it succeeds
      and leaves the device as the uninterrupted one would have. */
  lemma ReceptionRecoversAmong(s: System, d: Device, m: Manifest, choice: Choice, policy: Policy, p: Crash, others: seq<Event>)
    requires SystemOk(s) && Receivable(s, d, m) && IsCommitted(s.q, m) && d in s.q.jobs[m.id].recipients
    requires Succeeds(s.clients[d], s.q, m, choice, policy) && Possible(s.clients[d], m, p)
    requires (choice.NoChoice? || s.clients[d].chose) && ByOthers(others, d)
    ensures var c := s.clients[d]; var t := AfterOthers(s, d, m, choice, p, others);
      && SystemOk(t) && d in t.clients && t.clients[d] == Interrupted(c, m, choice, p)
      && var again := Again(t.clients[d], m, choice);
      && Succeeds(t.clients[d], t.q, m, again, policy)
      && SameEnd(c, m, choice, Received(c, m, choice), Received(t.clients[d], m, again))
  {
    hide SystemOk, AfterOthers, Receivable, Succeeds, Interrupted, Possible, Received, Again, SameEnd, ByOthers, Truthful, IsCommitted, Receipt,
         StillServes, ValidManifest;
    Convergence.ReceivableDevice(s, d, m);
    CommittedInfo(s, d, m);
    AmongOthers(s, d, m, choice, policy, p, others);
    ReceptionRecovers(s.clients[d], s.q, m, choice, policy, p, AfterOthers(s, d, m, choice, p, others).q);
  }

  /** What the others leave to the device after its interruption. */
  lemma AmongOthers(s: System, d: Device, m: Manifest, choice: Choice, policy: Policy, p: Crash, others: seq<Event>)
    requires SystemOk(s) && Receivable(s, d, m) && IsCommitted(s.q, m) && d in s.q.jobs[m.id].recipients
    requires Succeeds(s.clients[d], s.q, m, choice, policy) && Possible(s.clients[d], m, p)
    requires (choice.NoChoice? || s.clients[d].chose) && ByOthers(others, d)
    ensures var c := s.clients[d]; var t := AfterOthers(s, d, m, choice, p, others);
      && SystemOk(t) && d in t.clients && t.clients[d] == Interrupted(c, m, choice, p)
      && Receipt(t.q, d, m.id, ManifestHash(m)).Done?
      && (BeforeSettling(p) || p.Settling? ==> StillServes(s.q, t.q, c, m))
  {
    hide SystemOk, Run, UpTo, Receivable, Succeeds, Interrupted, InterruptedBy, Possible, Undisturbed, ByOthers, Truthful, IsCommitted, Receipt,
         StillServes, Entitled, ValidManifest, Journal;
    Convergence.ReceivableDevice(s, d, m);
    var c := s.clients[d];
    CommittedInfo(s, d, m);
    AllowedSteps(c, s.q, m, choice, policy);
    InterruptionIsRun(s, d, m, choice, p);
    var i := Run(s, UpTo(c, d, m, choice, p));
    RunOk(s, UpTo(c, d, m, choice, p));
    OthersRun(i, others, d);
    var t := Run(i, others);
    LaterReceipt(s, i, t, d, m, p);
    if BeforeSettling(p) || p.Settling? {
      EarlyBroker(c, s.q, m, p);
      ServesAmong(s, i, t, d, m);
    }
  }

  lemma CommittedInfo(s: System, d: Device, m: Manifest)
    requires SystemOk(s) && d in s.clients && IsCommitted(s.q, m)
    ensures ValidManifest(m) && s.clients[d].role == d && (m.key in s.clients[d].files ==> Truthful(s.clients[d].files[m.key]))
    ensures Receipt(s.q, d, m.id, ManifestHash(m)).Done?
  {
    Convergence.CommittedFacts(s, d, m);
    Convergence.CommittedReceipt(s.q, d, m);
    assert ValidManifest(m);
    hide SystemOk, IsCommitted, Receipt, Truthful;
  }

  lemma AllowedSteps(c: Client, q: Queue, m: Manifest, choice: Choice, policy: Policy)
    requires Succeeds(c, q, m, choice, policy) && (choice.NoChoice? || c.chose)
    ensures Journal(c, m, Applied) || Entitled(c, m)
  {
    if choice.NoChoice? { Convergence.SucceedsOnHead(c, q, m, policy); }
    hide Succeeds;
  }

  lemma EarlyBroker(c: Client, q: Queue, m: Manifest, p: Crash)
    requires BeforeSettling(p) || p.Settling?
    ensures InterruptedBy(c, q, m, p) == q
  {
  }

  /** The broker's answer to the receipt stays what it was. */
  lemma LaterReceipt(s: System, i: System, t: System, d: Device, m: Manifest, p: Crash)
    requires SystemOk(s) && d in s.clients && s.clients[d].role == d && IsCommitted(s.q, m) && i.q == InterruptedBy(s.clients[d], s.q, m, p)
    requires d in i.clients && Undisturbed(i.q, t.q, d, i.clients[d])
    ensures Receipt(t.q, d, m.id, ManifestHash(m)).Done?
  {
    PartsOf(s);
    Convergence.CommittedReceipt(s.q, d, m);
    InterruptedEvolves(s.q, s.clients[d], m, p);
    hide SystemOk, Inv, Honest, FilesTracked, InterruptedBy, Receipt, Retains, Unmoved;
    assert IsCommitted(t.q, m);
    Convergence.CommittedReceipt(t.q, d, m);
  }

  lemma InterruptedEvolves(q: Queue, c: Client, m: Manifest, p: Crash)
    requires Inv(q) && Receipt(q, c.role, m.id, ManifestHash(m)).Done?
    ensures Evolves(q, InterruptedBy(c, q, m, p))
  {
    hide Inv;
    AcknowledgedFrame(q, c.role, m);
    ReceiptedEvolves(q, c.role, m.id);
    hide Acknowledge, Receipted, KeepsOthers;
  }

  lemma ServesAmong(s: System, i: System, t: System, d: Device, m: Manifest)
    requires SystemOk(s) && SystemOk(t) && d in s.clients && s.clients[d].role == d && IsCommitted(s.q, m) && d in s.q.jobs[m.id].recipients
    requires i.q == s.q && d in i.clients && Undisturbed(i.q, t.q, d, i.clients[d])
    ensures StillServes(s.q, t.q, s.clients[d], m)
  {
    hide SystemOk, Truthful, IsCommitted, Retains, ReceiptsBacked, Holding, StillServes, UnmovedReceipts, Undisturbed;
    Convergence.CommittedFacts(s, d, m);
    TrueChunks(s);
    TrueChunks(t);
    ReceiptsOf(i.q, t.q, d, i.clients[d]);
    ServesThrough(s.q, t.q, d, s.clients[d], m);
    assert s.clients[d].(role := d) == s.clients[d];
  }

  lemma ReceiptsOf(q: Queue, q': Queue, d: Device, c: Client)
    requires Undisturbed(q, q', d, c)
    ensures Retains(q, q', d) && UnmovedReceipts(q, q', d)
  {
    hide Retains, Evolves;
  }
}
