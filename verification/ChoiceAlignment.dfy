/** An explicit choice that is carried through puts its file in line, whatever it was before, and leaves the others be. */
module ChoiceAlignment {
  import opened Base
  import opened BrokerState
  import opened BrokerInvariants
  import opened BrokerGuarantees
  import opened ClientState
  import opened Receiving
  import opened Preservation
  import opened Resolution
  import opened SyncSystem
  import opened SyncInvariants
  import opened SyncGuarantees
  import opened Interference
  import opened Alignment
  import opened ChoiceRun
  import Convergence
  import SessionConvergence
  import Recovery
  import SyncPoints

  function Ids(ms: seq<Manifest>): set<JobId> {
    set i | 0 <= i < |ms| :: ms[i].id
  }

  /** The device acknowledged these versions and nothing else changed about receipts and commits. */
  ghost predicate AcksAll(q: Queue, q': Queue, d: Device, ids: set<JobId>) {
    && Evolves(q, q') && q'.jobs.Keys == q.jobs.Keys
    && forall id | id in q.jobs ::
         && q'.jobs[id].Committed() == q.jobs[id].Committed()
         && (d in q'.jobs[id].receipts <==> d in q.jobs[id].receipts || id in ids)
  }

  /** Versions of one file were received: their rows are gone, and only that file's recorded version may differ. */
  ghost predicate Worked(c: Client, c': Client, k: Key, ids: set<JobId>) {
    && c'.inbox == c.inbox - ids && c'.role == c.role
    && forall other | other != k :: (other in c'.files <==> other in c.files) && (other in c.files ==> c'.files[other] == c.files[other])
  }

  lemma ReceivedWorked(c: Client, m: Manifest, choice: Choice)
    ensures Worked(c, Received(c, m, choice), m.key, {m.id})
  {
    Recovery.ReadiedForm(c, m);
    hide Readied, Stays, Blocks, Seeds;
    var f := Received(c, m, choice);
    if !Journal(c, m, Applied) {
      assert f.inbox == c.inbox - {m.id};
    }
  }

  lemma WorkedTwice(c: Client, f: Client, g: Client, k: Key, a: set<JobId>, b: set<JobId>)
    requires Worked(c, f, k, a) && Worked(f, g, k, b)
    ensures Worked(c, g, k, a + b)
  {
    assert c.inbox - a - b == c.inbox - (a + b);
  }

  lemma AcksTwice(q: Queue, r: Queue, q': Queue, d: Device, id: JobId, b: set<JobId>)
    requires AcksOnly(q, r, d, id) && AcksAll(r, q', d, b)
    ensures AcksAll(q, q', d, {id} + b)
  {
  }

  lemma FirstIds(ms: seq<Manifest>)
    requires ms != []
    ensures Ids(ms) == {ms[0].id} + Ids(ms[1..])
  {
    assert forall i | 0 <= i < |ms[1..]| :: ms[1..][i] == ms[i + 1];
    forall id | id in Ids(ms)
      ensures id in {ms[0].id} + Ids(ms[1..])
    {
      var i :| 0 <= i < |ms| && ms[i].id == id;
      if i > 0 { assert ms[1..][i - 1].id == id; }
    }
  }

  lemma ReceivedInv(c: Client, q: Queue, m: Manifest)
    requires Inv(q) && Receipt(q, c.role, m.id, ManifestHash(m)).Done?
    ensures Inv(ReceivedBy(c, q, m))
  {
    hide Inv, Receipt, Acknowledge;
    SyncPoints.AcknowledgeOutcome(q, c.role, m);
  }

  /** What the receptions of a choice do to receipts, rows and recorded versions. */
  lemma {:induction false} ChosenEffect(c: Client, q: Queue, k: Key, ms: seq<Manifest>, keep: bool, accepted: Option<Hash>, policy: Policy)
    requires Inv(q) && ChoiceSucceeds(c, q, ms, keep, accepted, policy) && forall i | 0 <= i < |ms| :: ms[i].key == k
    ensures AcksAll(q, ResolvingBy(c, q, ms, keep, accepted), c.role, Ids(ms))
    ensures Worked(c, Resolving(c, ms, keep, accepted), k, Ids(ms))
    decreases |ms|
  {
    hide Inv, Received, ReceivedBy, Succeeds, NextAccepted, AcksAll, AcksOnly, KeepsOthers, Worked, Ids, Acknowledge;
    if ms == [] {
      assert AcksAll(q, q, c.role, Ids(ms)) && Worked(c, c, k, Ids(ms)) by { NothingWorked(c, q, k, ms); }
    } else {
      var m, choice := ms[0], ChoiceOf(keep, accepted);
      var f, r := Received(c, m, choice), ReceivedBy(c, q, m);
      Recovery.ReceiptOf(c, q, m, choice, policy);
      hide Receipt;
      ReceivedInv(c, q, m);
      ReceivedWorked(c, m, choice);
      AckOf(c, q, m);
      ChosenEffect(f, r, k, ms[1..], keep, NextAccepted(c, m, keep, accepted), policy);
      FirstIds(ms);
      RoleWorked(c, f, k, {m.id});
      WorkedTwice(c, f, Resolving(c, ms, keep, accepted), k, {m.id}, Ids(ms[1..]));
      AcksTwice(q, r, ResolvingBy(c, q, ms, keep, accepted), c.role, m.id, Ids(ms[1..]));
    }
  }

  lemma RoleWorked(c: Client, f: Client, k: Key, ids: set<JobId>)
    requires Worked(c, f, k, ids)
    ensures f.role == c.role
  {
  }

  lemma AckOf(c: Client, q: Queue, m: Manifest)
    requires Inv(q) && Receipt(q, c.role, m.id, ManifestHash(m)).Done?
    ensures AcksOnly(q, ReceivedBy(c, q, m), c.role, m.id)
  {
    hide Inv, Receipt, Acknowledge, AcksOnly, KeepsOthers;
    AcknowledgedFrame(q, c.role, m);
  }

  lemma NothingWorked(c: Client, q: Queue, k: Key, ms: seq<Manifest>)
    requires ms == []
    ensures AcksAll(q, q, c.role, Ids(ms)) && Worked(c, c, k, Ids(ms))
  {
    assert Ids(ms) == {} && c.inbox - {} == c.inbox;
  }

  // ---------------------------------------------------------------- everything of the file is acknowledged

  lemma {:induction false} OfFileHas(ms: seq<Manifest>, k: Key, m: Manifest)
    requires m in ms && m.key == k
    ensures m in OfFile(ms, k)
    decreases |ms|
  {
    var last := |ms| - 1;
    if m != ms[last] {
      OfFileHas(ms[..last], k, m);
    }
  }

  /** Each committed version of the file is acknowledged by the bound device or among those a choice receives. */
  lemma FileCovered(q: Queue, d: Device, k: Key, remote: JobId, id: JobId)
    requires Inv(q) && (k.dataset, d) in q.bindings && remote in q.jobs
    requires id in q.jobs && q.jobs[id].Committed() && q.jobs[id].manifest.key == k
    ensures d in q.jobs[id].receipts || id in Ids(ToReceive(q, d, k, remote))
  {
    hide Inv, OfFile, Pending, Ids, Convergence.Answered, PendingOf;
    if d !in q.jobs[id].receipts {
      var m := q.jobs[id].manifest;
      PendingHas(q, d, k, id);
      assert m in ToReceive(q, d, k, remote);
      IdsHave(ToReceive(q, d, k, remote), m);
      KnownId(q, id);
    }
  }

  lemma KnownId(q: Queue, id: JobId)
    requires Inv(q) && id in q.jobs
    ensures q.jobs[id].manifest.id == id
  {
    assert WellFormed(q.jobs);
    hide Inv, ValidManifest, Sizes;
  }

  lemma PendingHas(q: Queue, d: Device, k: Key, id: JobId)
    requires Inv(q) && (k.dataset, d) in q.bindings
    requires id in q.jobs && q.jobs[id].Committed() && q.jobs[id].manifest.key == k && d !in q.jobs[id].receipts
    ensures q.jobs[id].manifest in PendingOf(q, d, k)
  {
    PendingExact(q, d, k.dataset);
    hide Inv, OfFile, Pending, Convergence.Answered, Ascending, ParentsFirst;
    SessionConvergence.PendingKnown(q, d, k.dataset);
    var p := Pending(q, d, k.dataset);
    assert Lacks(q, d, k.dataset, id);
    AnsweredHas(q, p, id);
    OfFileHas(Convergence.Answered(q, p), k, q.jobs[id].manifest);
  }

  lemma AnsweredHas(q: Queue, p: seq<JobId>, id: JobId)
    requires (forall i | 0 <= i < |p| :: p[i] in q.jobs) && id in p
    ensures q.jobs[id].manifest in Convergence.Answered(q, p)
  {
    var i :| 0 <= i < |p| && p[i] == id;
    assert Convergence.Answered(q, p)[i] == q.jobs[id].manifest;
  }

  lemma IdsHave(ms: seq<Manifest>, m: Manifest)
    requires m in ms
    ensures m.id in Ids(ms)
  {
  }

  lemma HeadReceived(q: Queue, d: Device, k: Key, remote: JobId)
    requires remote in q.jobs && q.jobs[remote].manifest.id == remote
    ensures remote in Ids(ToReceive(q, d, k, remote))
  {
    hide PendingOf;
    var ms := ToReceive(q, d, k, remote);
    assert ms[|ms| - 1].id == remote;
  }

  /** With everything of the file acknowledged and the head's row gone, being aligned is having the head recorded. */
  lemma AcknowledgedAligned(q: Queue, q': Queue, d: Device, c': Client, k: Key, remote: JobId)
    requires Parented(q'.jobs) && Headed(q'.jobs, q'.heads) && HeadsCommitted(q', c') && HeadOf(q', k) == Some(remote)
    requires remote !in c'.inbox
    requires forall id | id in q'.jobs && q'.jobs[id].Committed() && q'.jobs[id].manifest.key == k :: d in q'.jobs[id].receipts
    ensures AlignedFile(q', d, c', k) <==> Recorded(c', k) == Some(remote)
  {
    hide Lineage, Parented;
    if Recorded(c', k) == Some(remote) {
      assert forall id | id in q'.jobs && q'.jobs[id].Committed() && q'.jobs[id].manifest.key == k :: id in Upto(q', c', k);
    }
    if AlignedFile(q', d, c', k) {
      assert AlignedAt(q', d, c', remote);
      UptoCommitted(q', c', k, remote);
      var r := c'.files[k].id;
      LineageMembers(q'.jobs, remote, r);
      LineageMembers(q'.jobs, r, remote);
    }
  }

  lemma OthersAligned(q: Queue, q': Queue, d: Device, c: Client, c': Client, k: Key, ids: set<JobId>, id: JobId)
    requires Parented(q.jobs) && HeadsCommitted(q, c) && AcksAll(q, q', d, ids) && Worked(c, c', k, ids)
    requires id in q.jobs && q.jobs[id].manifest.key != k && id !in ids
    ensures id in q'.jobs && (AlignedAt(q', d, c', id) <==> AlignedAt(q, d, c, id))
  {
    UptoStable(q, q', c, q.jobs[id].manifest.key);
    assert Upto(q', c', q.jobs[id].manifest.key) == Upto(q', c, q.jobs[id].manifest.key);
    hide Upto, Evolves;
  }

  // ---------------------------------------------------------------- the whole choice

  /** A choice carried through by a bound device aligns the file exactly when it ends with the head recorded, which it does
      unless the head had been applied before and only its row was left; the other files are as much aligned as they were. */
  lemma ChoiceAligns(s: System, d: Device, k: Key, keep: bool, expected: Option<Hash>, remote: JobId, policy: Policy)
    requires SystemOk(s) && d in s.clients && (k.dataset, d) in s.q.bindings
    requires Resolvable(s.clients[d], s.q, d, k, keep, expected, remote, policy)
    ensures var c := s.clients[d]; var t := Run(s, ResolutionEvents(c, s.q, d, k, keep, remote));
      && d in t.clients
      && (AlignedFile(t.q, d, t.clients[d], k) <==> Recorded(t.clients[d], k) == Some(remote))
      && (!Journal(Resolving(Chooser(c, k), PendingOf(s.q, d, k), keep, Local(c, k)), s.q.jobs[remote].manifest, Applied) ==>
            AlignedFile(t.q, d, t.clients[d], k))
      && (forall other | other != k :: AlignedFile(t.q, d, t.clients[d], other) <==> AlignedFile(s.q, d, c, other))
  {
    hide SystemOk, Run, Inv, Honest, FilesTracked, PendingOf, Resolving, ResolvingBy, ChoiceSucceeds, CopyGood, ResolutionEvents, AlignedFile, ResolvedSafely, NothingLost;
    var c := s.clients[d];
    var t := Run(s, ResolutionEvents(c, s.q, d, k, keep, remote));
    ResolutionIsRun(s, d, k, keep, expected, remote, policy);
    RoleOf(s, d);
    PartsOf(s);
    ResolvedEnds(c, s.q, t.clients[d], t.q, d, k, keep, expected, remote, policy);
    EffectOf(s, t, d, k, keep, expected, remote, policy);
    hide ResolvedTo, Resolvable;
    assert !Journal(Resolving(Chooser(c, k), PendingOf(s.q, d, k), keep, Local(c, k)), s.q.jobs[remote].manifest, Applied) ==>
             Recorded(t.clients[d], k) == Some(remote) by { HeadEnds(c, s.q, t.clients[d], d, k, keep, remote); }
    FileAligned(s, t, d, k, remote);
    forall other | other != k
      ensures AlignedFile(t.q, d, t.clients[d], other) <==> AlignedFile(s.q, d, c, other)
    {
      OtherFile(s, t, d, k, remote, other);
    }
  }

  /** A choice that ends with the head recorded aligns the device with its dataset if the other files were aligned. */
  lemma ChoiceAlignsDataset(s: System, d: Device, k: Key, keep: bool, expected: Option<Hash>, remote: JobId, policy: Policy)
    requires SystemOk(s) && d in s.clients && (k.dataset, d) in s.q.bindings
    requires Resolvable(s.clients[d], s.q, d, k, keep, expected, remote, policy)
    ensures var t := Run(s, ResolutionEvents(s.clients[d], s.q, d, k, keep, remote));
      && d in t.clients
      && (Aligned(t.q, d, t.clients[d], k.dataset)
          <==> && Recorded(t.clients[d], k) == Some(remote)
               && forall other: Key | other.dataset == k.dataset && other != k :: AlignedFile(s.q, d, s.clients[d], other))
  {
    hide SystemOk, Run, ResolutionEvents, Resolvable, Aligned, AlignedFile;
    HeadInJobs(s.clients[d], s.q, d, k, keep, expected, remote, policy);
    var t := Run(s, ResolutionEvents(s.clients[d], s.q, d, k, keep, remote));
    ChoiceAligns(s, d, k, keep, expected, remote, policy);
    AlignedByFile(t.q, d, t.clients[d], k.dataset);
  }

  lemma HeadInJobs(c: Client, q: Queue, d: Device, k: Key, keep: bool, expected: Option<Hash>, remote: JobId, policy: Policy)
    requires Resolvable(c, q, d, k, keep, expected, remote, policy)
    ensures remote in q.jobs
  {
  }

  lemma HeadEnds(c: Client, q: Queue, c': Client, role: Device, k: Key, keep: bool, remote: JobId)
    requires ResolvedSafely(c, q, c', role, k, keep, remote)
    ensures !Journal(Resolving(Chooser(c, k), PendingOf(q, role, k), keep, Local(c, k)), q.jobs[remote].manifest, Applied) ==>
              Recorded(c', k) == Some(remote)
  {
    hide Resolving, PendingOf, ResolvesSafely, Chooser;
  }

  /** The choice's effect on receipts, rows and recorded versions, as a relation of the states before and after. */
  ghost predicate ChoiceEffect(s: System, t: System, d: Device, k: Key, remote: JobId) {
    && SystemOk(s) && SystemOk(t) && d in s.clients && d in t.clients && (k.dataset, d) in s.q.bindings
    && remote in s.q.jobs && s.q.jobs[remote].manifest.id == remote && HeadOf(s.q, k) == Some(remote) && HeadOf(t.q, k) == Some(remote)
    && (forall m | m in ToReceive(s.q, d, k, remote) :: m.key == k && IsCommitted(s.q, m))
    && AcksAll(s.q, t.q, d, Ids(ToReceive(s.q, d, k, remote)))
    && Worked(s.clients[d], t.clients[d], k, Ids(ToReceive(s.q, d, k, remote)))
  }

  lemma EffectOf(s: System, t: System, d: Device, k: Key, keep: bool, expected: Option<Hash>, remote: JobId, policy: Policy)
    requires SystemOk(s) && d in s.clients && (k.dataset, d) in s.q.bindings && SystemOk(t) && d in t.clients
    requires Resolvable(s.clients[d], s.q, d, k, keep, expected, remote, policy)
    requires ResolvedTo(s.clients[d], s.q, t.clients[d], t.q, d, k, keep, remote)
    ensures ChoiceEffect(s, t, d, k, remote)
  {
    hide SystemOk, Inv, Honest, FilesTracked, PendingOf, Resolving, ResolvingBy, ChoiceSucceeds, CopyGood, Truthful, AcksAll, Worked, Ids, IsCommitted, Chooser, WithoutOutbox;
    var c, b, ms := s.clients[d], Chooser(s.clients[d], k), ToReceive(s.q, d, k, remote);
    RoleOf(s, d);
    PartsOf(s);
    ReceivesFile(s.q, d, k, remote);
    ToReceiveCommitted(s.q, d, k, remote);
    ChooserRole(c, k);
    ChosenEffect(b, s.q, k, ms, keep, Local(c, k), policy);
    SameHeadsBy(b, s.q, ms, keep, Local(c, k));
    WorkedAround(c, k, Resolving(b, ms, keep, Local(c, k)), Ids(ms));
  }

  lemma ChooserRole(c: Client, k: Key)
    ensures Chooser(c, k).role == c.role
  {
  }

  lemma WorkedAround(c: Client, k: Key, r: Client, ids: set<JobId>)
    requires Worked(Chooser(c, k), r, k, ids)
    ensures Worked(c, WithoutOutbox(r, k), k, ids)
  {
  }

  lemma {:induction false} SameHeadsBy(c: Client, q: Queue, ms: seq<Manifest>, keep: bool, accepted: Option<Hash>)
    ensures ResolvingBy(c, q, ms, keep, accepted).heads == q.heads
    decreases |ms|
  {
    hide Received, ReceivedBy, NextAccepted;
    if ms != [] {
      HeadsOf(c, q, ms[0]);
      SameHeadsBy(Received(c, ms[0], ChoiceOf(keep, accepted)), ReceivedBy(c, q, ms[0]), ms[1..], keep, NextAccepted(c, ms[0], keep, accepted));
    }
  }

  lemma HeadsOf(c: Client, q: Queue, m: Manifest)
    ensures ReceivedBy(c, q, m).heads == q.heads
  {
    Convergence.BrokerRest(q, c.role, m);
  }

  lemma FileAligned(s: System, t: System, d: Device, k: Key, remote: JobId)
    requires ChoiceEffect(s, t, d, k, remote)
    ensures AlignedFile(t.q, d, t.clients[d], k) <==> Recorded(t.clients[d], k) == Some(remote)
  {
    hide SystemOk, Inv, Honest, FilesTracked, PendingOf, Ids, ToReceive, AlignedFile, Parented, Headed, HeadsCommitted;
    PartsOf(s);
    HeadReceived(s.q, d, k, remote);
    forall id | id in t.q.jobs && t.q.jobs[id].Committed() && t.q.jobs[id].manifest.key == k
      ensures d in t.q.jobs[id].receipts
    {
      FileCovered(s.q, d, k, remote, id);
    }
    TipOf(t, d);
    AcknowledgedAligned(s.q, t.q, d, t.clients[d], k, remote);
  }

  lemma TipOf(t: System, d: Device)
    requires SystemOk(t) && d in t.clients
    ensures Parented(t.q.jobs) && Headed(t.q.jobs, t.q.heads) && HeadsCommitted(t.q, t.clients[d])
  {
    Convergence.ParentedHeads(t, d);
    PartsOf(t);
    hide SystemOk, Parented, Headed, HeadsCommitted;
  }

  lemma OtherFile(s: System, t: System, d: Device, k: Key, remote: JobId, other: Key)
    requires ChoiceEffect(s, t, d, k, remote) && other != k
    ensures AlignedFile(t.q, d, t.clients[d], other) <==> AlignedFile(s.q, d, s.clients[d], other)
  {
    TipOf(s, d);
    hide SystemOk, ToReceive, Worked, Parented, Headed, HeadsCommitted, AlignedAt;
    var ids := Ids(ToReceive(s.q, d, k, remote));
    forall id | id in s.q.jobs && s.q.jobs[id].manifest.key == other
      ensures id in t.q.jobs && (AlignedAt(t.q, d, t.clients[d], id) <==> AlignedAt(s.q, d, s.clients[d], id))
    {
      NotReceived(s.q, d, k, remote, id);
      OthersAligned(s.q, t.q, d, s.clients[d], t.clients[d], k, ids, id);
    }
  }

  lemma NotReceived(q: Queue, d: Device, k: Key, remote: JobId, id: JobId)
    requires remote in q.jobs && (forall m | m in ToReceive(q, d, k, remote) :: m.key == k && IsCommitted(q, m))
    requires id in q.jobs && q.jobs[id].manifest.key != k
    ensures id !in Ids(ToReceive(q, d, k, remote))
  {
    hide ToReceive;
    var ms := ToReceive(q, d, k, remote);
    assert forall i | 0 <= i < |ms| :: ms[i] in ms;
  }
}
