/** A whole explicit choice is a run of steps of the system, so what holds in every reachable state holds after it. */
module ChoiceRun {
  import opened Base
  import opened BrokerState
  import opened BrokerInvariants
  import opened BrokerGuarantees
  import opened ClientState
  import opened Receiving
  import opened Preservation
  import opened Resolution
  import opened SyncSystem
  import opened SyncInvariants
  import opened SyncGuarantees
  import opened ReceptionRun
  import opened Interference
  import Convergence
  import SessionConvergence
  import Recovery

  /** The receptions of a choice, one after the other. */
  function ChosenEvents(c: Client, d: Device, ms: seq<Manifest>, keep: bool, accepted: Option<Hash>): seq<Event>
    decreases |ms|
  {
    if ms == [] then []
    else
      var choice := ChoiceOf(keep, accepted);
      Reception(c, d, ms[0], choice) + ChosenEvents(Received(c, ms[0], choice), d, ms[1..], keep, NextAccepted(c, ms[0], keep, accepted))
  }

  /** The decision, the copy, the receptions, and the outbox forgetting the file. */
  function ResolutionEvents(c: Client, q: Queue, d: Device, k: Key, keep: bool, remote: JobId): seq<Event>
    requires remote in q.jobs
  {
    [Chooses(d), Backs(d, k)] + ChosenEvents(Chooser(c, k), d, ToReceive(q, d, k, remote), keep, Local(c, k)) + [Forgets(d, k)]
  }

  lemma ChosenReceivable(s: System, d: Device, m: Manifest, choice: Choice, policy: Policy)
    requires SystemOk(s) && d in s.clients && s.clients[d].chose && IsCommitted(s.q, m) && Succeeds(s.clients[d], s.q, m, choice, policy)
    ensures Receivable(s, d, m) && Entitled(s.clients[d], m) && Receipt(s.q, d, m.id, ManifestHash(m)).Done?
  {
    DeviceOf(s, d);
    Recovery.ReceiptOf(s.clients[d], s.q, m, choice, policy);
    hide Inv, Honest, KnownDevices, OutboxesApart, DeviceInv, HeadsCommitted, OutboxOwn, BlocksKept, Succeeds, Receipt;
  }

  lemma ReceivedStill(c: Client, m: Manifest, choice: Choice)
    ensures var f := Received(c, m, choice); f.chose == c.chose && f.role == c.role
  {
    Recovery.ReadiedForm(c, m);
    hide Readied, Already, Blocks;
  }

  lemma CommittedStill(q: Queue, d: Device, m: Manifest, o: Manifest)
    requires Inv(q) && IsCommitted(q, o) && Receipt(q, d, m.id, ManifestHash(m)).Done?
    ensures IsCommitted(After(q, Acknowledge(q, d, m.id, ManifestHash(m))), o)
  {
    AcknowledgedFrame(q, d, m);
    hide Acknowledge, Receipt, Inv, KeepsOthers;
  }

  /** One reception under the choice. */
  lemma ChosenStep(s: System, d: Device, ms: seq<Manifest>, choice: Choice, policy: Policy)
    requires SystemOk(s) && d in s.clients && s.clients[d].chose && s.clients[d].role == d && ms != []
    requires (forall i | 0 <= i < |ms| :: IsCommitted(s.q, ms[i])) && Succeeds(s.clients[d], s.q, ms[0], choice, policy)
    ensures var c := s.clients[d]; var t := System(ReceivedBy(c, s.q, ms[0]), s.clients[d := Received(c, ms[0], choice)]);
      && Run(s, Reception(c, d, ms[0], choice)) == t && SystemOk(t)
      && t.clients[d].chose && t.clients[d].role == d
      && forall i | 0 <= i < |ms[1..]| :: IsCommitted(t.q, ms[1..][i])
  {
    hide SystemOk, Run, Reception, Receivable, Entitled, Receipt, Received, Succeeds, IsCommitted, Acknowledge, Inv, Honest, FilesTracked;
    var c := s.clients[d];
    ChosenReceivable(s, d, ms[0], choice, policy);
    ReceptionIsRun(s, d, ms[0], choice);
    RunOk(s, Reception(c, d, ms[0], choice));
    ReceivedStill(c, ms[0], choice);
    PartsOf(s);
    forall i | 0 <= i < |ms[1..]|
      ensures IsCommitted(ReceivedBy(c, s.q, ms[0]), ms[1..][i])
    {
      assert ms[1..][i] == ms[i + 1];
      CommittedStill(s.q, d, ms[0], ms[i + 1]);
    }
  }

  lemma {:induction false} ChosenRun(s: System, d: Device, ms: seq<Manifest>, keep: bool, accepted: Option<Hash>, policy: Policy)
    requires SystemOk(s) && d in s.clients && s.clients[d].chose && s.clients[d].role == d
    requires (forall i | 0 <= i < |ms| :: IsCommitted(s.q, ms[i])) && ChoiceSucceeds(s.clients[d], s.q, ms, keep, accepted, policy)
    ensures var c := s.clients[d]; var t := Run(s, ChosenEvents(c, d, ms, keep, accepted));
      t == System(ResolvingBy(c, s.q, ms, keep, accepted), s.clients[d := Resolving(c, ms, keep, accepted)])
      && Resolving(c, ms, keep, accepted).chose
    decreases |ms|
  {
    hide SystemOk, Run, Reception, Received, ReceivedBy, Succeeds, IsCommitted, NextAccepted;
    var c := s.clients[d];
    if ms == [] {
      assert s.clients[d := c] == s.clients;
      RunNothing(s);
    } else {
      var choice := ChoiceOf(keep, accepted);
      var f, next := Received(c, ms[0], choice), NextAccepted(c, ms[0], keep, accepted);
      ChosenStep(s, d, ms, choice, policy);
      var t := System(ReceivedBy(c, s.q, ms[0]), s.clients[d := f]);
      ChosenRun(t, d, ms[1..], keep, next, policy);
      RunAppend(s, Reception(c, d, ms[0], choice), ChosenEvents(f, d, ms[1..], keep, next));
      assert s.clients[d := f][d := Resolving(f, ms[1..], keep, next)] == s.clients[d := Resolving(f, ms[1..], keep, next)];
    }
  }

  lemma RunNothing(s: System)
    ensures Run(s, []) == s
  {
  }

  lemma ChoosesStep(s: System, d: Device, k: Key)
    requires d in s.clients
    ensures Step(s, Chooses(d)) == With(s, d, Choosing(s.clients[d]))
    ensures Step(s, Backs(d, k)) == With(s, d, Backup(s.clients[d], k))
  {
    hide Backup, Choosing;
  }

  lemma ChoosesRun(s: System, d: Device, k: Key)
    requires d in s.clients
    ensures Run(s, [Chooses(d), Backs(d, k)]) == With(s, d, Chooser(s.clients[d], k))
  {
    hide Run, Step, Backup, Choosing;
    var c := s.clients[d];
    Extend(s, [Chooses(d)], Backs(d, k));
    assert [Chooses(d)] + [Backs(d, k)] == [Chooses(d), Backs(d, k)];
    Extend(s, [], Chooses(d));
    assert [] + [Chooses(d)] == [Chooses(d)];
    RunNothing(s);
    ChoosesStep(s, d, k);
    ChoosesStep(With(s, d, Choosing(c)), d, k);
    WithTwice(s, d, Choosing(c), Chooser(c, k));
  }

  lemma ForgetsStep(s: System, d: Device, k: Key)
    requires d in s.clients && s.clients[d].chose
    ensures Step(s, Forgets(d, k)) == With(s, d, WithoutOutbox(s.clients[d], k))
  {
  }

  lemma PendingCommitted(q: Queue, d: Device, k: Key)
    requires Inv(q)
    ensures forall i | 0 <= i < |PendingOf(q, d, k)| :: IsCommitted(q, PendingOf(q, d, k)[i])
  {
    SessionConvergence.PendingKnown(q, d, k.dataset);
    var p := Pending(q, d, k.dataset);
    var all := Convergence.Answered(q, p);
    OfFileMembers(all, k);
    SessionConvergence.SelectedFrom(q.order, set id | id in q.jobs && Awaits(q, d, k.dataset, id));
    assert WellFormed(q.jobs);
    Convergence.AnsweredAt(q, p);
    hide Inv, WellFormed, OfFile;
    forall i | 0 <= i < |PendingOf(q, d, k)|
      ensures IsCommitted(q, PendingOf(q, d, k)[i])
    {
      var m := PendingOf(q, d, k)[i];
      assert m in OfFile(all, k);
      var j :| 0 <= j < |all| && m == all[j];
      assert p[j] in p;
    }
  }

  lemma ToReceiveCommitted(q: Queue, d: Device, k: Key, remote: JobId)
    requires Inv(q) && remote in q.jobs && HeadOf(q, k) == Some(remote)
    ensures var ms := ToReceive(q, d, k, remote); forall i | 0 <= i < |ms| :: IsCommitted(q, ms[i])
  {
    PendingCommitted(q, d, k);
    HeadKnown(q, k);
    assert Headed(q.jobs, q.heads);
    hide Inv, PendingOf, Lineage;
  }

  lemma ChooserStill(c: Client, k: Key)
    ensures Chooser(c, k).chose && Chooser(c, k).role == c.role
  {
  }

  /** A choice carried through is a run of the system; what it leaves is what `Resolve` leaves. */
  lemma ResolutionIsRun(s: System, d: Device, k: Key, keep: bool, expected: Option<Hash>, remote: JobId, policy: Policy)
    requires SystemOk(s) && d in s.clients && Resolvable(s.clients[d], s.q, d, k, keep, expected, remote, policy)
    ensures var c := s.clients[d]; var t := Run(s, ResolutionEvents(c, s.q, d, k, keep, remote));
      && SystemOk(t) && d in t.clients && t.clients == s.clients[d := t.clients[d]]
      && ResolvedTo(c, s.q, t.clients[d], t.q, d, k, keep, remote)
  {
    hide SystemOk, Run, Step, Inv, Honest, FilesTracked, Chooser, ChosenEvents, PendingOf, IsCommitted, Resolving, ResolvingBy, ChoiceSucceeds, CopyGood, WithoutOutbox;
    var c, ms := s.clients[d], ToReceive(s.q, d, k, remote);
    var start, chosen := [Chooses(d), Backs(d, k)], ChosenEvents(Chooser(c, k), d, ms, keep, Local(c, k));
    RoleOf(s, d);
    PartsOf(s);
    ChooserStill(c, k);
    ToReceiveCommitted(s.q, d, k, remote);
    ChoosesRun(s, d, k);
    RunOk(s, start);
    RunAppend(s, start, chosen);
    var b := With(s, d, Chooser(c, k));
    ChosenRun(b, d, ms, keep, Local(c, k), policy);
    Extend(s, start + chosen, Forgets(d, k));
    var r := Resolving(Chooser(c, k), ms, keep, Local(c, k));
    ForgetsStep(Run(s, start + chosen), d, k);
    WithTwice(s, d, Chooser(c, k), r);
    WithTwice(s, d, r, WithoutOutbox(r, k));
    RunOk(s, start + chosen + [Forgets(d, k)]);
  }
}
