/** What settling a file by an explicit choice leaves, and that it loses nothing. */
module Resolution {
  import opened Base
  import opened BrokerState
  import opened BrokerInvariants
  import opened BrokerGuarantees
  import opened ClientState
  import opened Receiving
  import opened Preservation
  import opened SyncSystem
  import Convergence
  import SessionConvergence

  /** The versions of one file in a list. */
  function OfFile(ms: seq<Manifest>, k: Key): seq<Manifest> {
    if ms == [] then []
    else
      var last := |ms| - 1;
      OfFile(ms[..last], k) + if ms[last].key == k then [ms[last]] else []
  }

  /** The pending versions of one file, parents first. */
  function PendingOf(q: Queue, role: Device, k: Key): seq<Manifest> {
    SessionConvergence.PendingKnown(q, role, k.dataset);
    OfFile(Convergence.Answered(q, Pending(q, role, k.dataset)), k)
  }

  /** The device as it is when the receptions of a choice begin. */
  function Chooser(c: Client, k: Key): Client {
    Backup(Choosing(c), k)
  }

  predicate CopyGood(b: Client, k: Key) {
    Local(b, k).Some? ==> Recoverable(b, k, Local(b, k).value)
  }

  /** The versions a choice for a head receives: what is pending for the file, then the head. */
  function ToReceive(q: Queue, role: Device, k: Key, remote: JobId): seq<Manifest>
    requires remote in q.jobs
  {
    PendingOf(q, role, k) + [q.jobs[remote].manifest]
  }

  /** Both sides are as inspected, the copy can be made, the pending versions end with the head, and all are received. */
  ghost predicate Resolvable(c: Client, q: Queue, role: Device, k: Key, keep: bool, expected: Option<Hash>, remote: JobId, policy: Policy) {
    && Local(c, k) == expected && HeadOf(q, k) == Some(remote) && remote in q.jobs
    && CopyGood(Chooser(c, k), k)
    && (var ms := PendingOf(q, role, k); ms == [] || ms[|ms| - 1].id == remote)
    && ChoiceSucceeds(Chooser(c, k), q, ToReceive(q, role, k, remote), keep, Local(c, k), policy)
  }

  /** The device received the pending versions of the file and its head under the choice, and the outbox forgot the file. */
  ghost predicate ResolvedTo(c: Client, q: Queue, c': Client, q': Queue, role: Device, k: Key, keep: bool, remote: JobId) {
    && remote in q.jobs
    && var ms := ToReceive(q, role, k, remote);
    && c' == WithoutOutbox(Resolving(Chooser(c, k), ms, keep, Local(c, k)), k)
    && q' == ResolvingBy(Chooser(c, k), q, ms, keep, Local(c, k))
  }

  /** A refused choice changed nothing but the copy, or stopped at one of the receptions. */
  ghost predicate ResolutionStops(c: Client, q: Queue, c': Client, q': Queue, role: Device, k: Key, keep: bool, remote: JobId, policy: Policy) {
    || (q' == q && c' in {c, Chooser(c, k)})
    || (&& CopyGood(Chooser(c, k), k) && remote in q.jobs && HeadOf(q, k) == Some(remote)
        && StopsShort(Chooser(c, k), q, ToReceive(q, role, k, remote), keep, Local(c, k), policy, c', q'))
  }

  /** Every content the file had on the way is in place, copied or in the cache. */
  ghost predicate NothingLost(c: Client, q: Queue, c': Client, role: Device, k: Key, keep: bool, remote: JobId, policy: Policy) {
    remote in q.jobs && LosesNothing(Chooser(c, k), q, k, ToReceive(q, role, k, remote), keep, Local(c, k), policy, c')
  }

  /** At every point of it displaced content survived; and unless the head had been applied before and only its receipt
      was missing, it is recorded, with the kept content or its own in place. */
  ghost predicate ResolvedSafely(c: Client, q: Queue, c': Client, role: Device, k: Key, keep: bool, remote: JobId) {
    && remote in q.jobs
    && var b := Chooser(c, k);
    && ResolvesSafely(b, ToReceive(q, role, k, remote), keep, Local(c, k))
    && (forall id | id in c'.outbox :: c'.outbox[id].key != k)
    && (!Journal(Resolving(b, PendingOf(q, role, k), keep, Local(c, k)), q.jobs[remote].manifest, Applied) ==>
          Recorded(c', k) == Some(remote) && (if keep then c'.tree == c.tree else Local(c', k) == q.jobs[remote].manifest.sha))
  }

  lemma ChooserLocal(c: Client, k: Key)
    ensures Chooser(c, k).tree == c.tree && Local(Chooser(c, k), k) == Local(c, k)
  {
  }

  lemma NothingChosen(c: Client, ms: seq<Manifest>, keep: bool, accepted: Option<Hash>)
    requires ms == []
    ensures Resolving(c, ms, keep, accepted) == c
    ensures forall q: Queue, policy: Policy :: ChoiceSucceeds(c, q, ms, keep, accepted, policy) && ResolvingBy(c, q, ms, keep, accepted) == q
  {
  }

  lemma HeadKnown(q: Queue, k: Key)
    requires Inv(q)
    ensures k in q.heads ==> q.heads[k] in q.jobs && q.jobs[q.heads[k]].manifest.key == k && q.jobs[q.heads[k]].manifest.id == q.heads[k]
  {
    assert Headed(q.jobs, q.heads) && WellFormed(q.jobs);
    hide Inv, Lineage, ValidManifest, Sizes;
  }

  lemma {:induction false} OfFileMembers(ms: seq<Manifest>, k: Key)
    ensures forall m | m in OfFile(ms, k) :: m in ms && m.key == k
  {
    if ms != [] {
      OfFileMembers(ms[..|ms| - 1], k);
    }
  }

  lemma PendingTruthful(q: Queue, role: Device, k: Key)
    requires Honest(q)
    ensures forall i | 0 <= i < |PendingOf(q, role, k)| :: Truthful(PendingOf(q, role, k)[i]) && PendingOf(q, role, k)[i].key == k
  {
    SessionConvergence.PendingKnown(q, role, k.dataset);
    var all := Convergence.Answered(q, Pending(q, role, k.dataset));
    OfFileMembers(all, k);
    hide Truthful, Pending, OfFile;
    assert forall i | 0 <= i < |all| :: Truthful(all[i]);
    forall i | 0 <= i < |PendingOf(q, role, k)|
      ensures Truthful(PendingOf(q, role, k)[i])
    {
      assert PendingOf(q, role, k)[i] in OfFile(all, k);
    }
  }

  lemma TruthfulOf(q: Queue, id: JobId)
    requires Honest(q) && id in q.jobs
    ensures Truthful(q.jobs[id].manifest)
  {
    hide Truthful;
  }

  lemma {:induction false} ChoiceChosen(c: Client, q: Queue, ms: seq<Manifest>, keep: bool, accepted: Option<Hash>, policy: Policy)
    requires ChoiceSucceeds(c, q, ms, keep, accepted, policy)
    ensures Chosen(c, ms, keep, accepted)
    decreases |ms|
  {
    hide Received, ReceivedBy, Succeeds, Acceptable;
    if ms != [] {
      SucceedsChosen(c, q, ms[0], ChoiceOf(keep, accepted), policy);
      ChoiceChosen(Received(c, ms[0], ChoiceOf(keep, accepted)), ReceivedBy(c, q, ms[0]), ms[1..], keep, NextAccepted(c, ms[0], keep, accepted), policy);
    }
  }

  lemma ReceivesFile(q: Queue, role: Device, k: Key, remote: JobId)
    requires Inv(q) && Honest(q) && HeadOf(q, k) == Some(remote) && remote in q.jobs
    ensures var ms := ToReceive(q, role, k, remote); forall i | 0 <= i < |ms| :: Truthful(ms[i]) && ms[i].key == k
    ensures q.jobs[remote].manifest.id == remote
  {
    hide Inv, Honest, PendingOf, Truthful;
    HeadKnown(q, k);
    PendingTruthful(q, role, k);
    TruthfulOf(q, remote);
  }

  lemma ChoosesExactly(c: Client, q: Queue, role: Device, k: Key, keep: bool, remote: JobId, policy: Policy)
    requires HeadOf(q, k) == Some(remote) && remote in q.jobs
    ensures var b := Chooser(c, k); var ms := PendingOf(q, role, k); var all := ms + [q.jobs[remote].manifest];
      && (Resolvable(c, q, role, k, keep, Local(c, k), remote, policy)
          <==> CopyGood(b, k) && (ms == [] || ms[|ms| - 1].id == remote) && ChoiceSucceeds(b, q, all, keep, Local(c, k), policy))
      && ResolutionStops(c, q, b, q, role, k, keep, remote, policy)
      && (CopyGood(b, k) ==> forall c', q' :: StopsShort(b, q, all, keep, Local(c, k), policy, c', q') ==>
            ResolutionStops(c, q, c', q', role, k, keep, remote, policy))
      && ResolvedTo(c, q, WithoutOutbox(Resolving(b, all, keep, Local(c, k)), k), ResolvingBy(b, q, all, keep, Local(c, k)), role, k, keep, remote)
  {
    hide PendingOf, ChoiceSucceeds, StopsShort, Resolving, ResolvingBy, CopyGood, WithoutOutbox, Chooser;
  }

  lemma ChoiceRefused(c: Client, q: Queue, role: Device, k: Key, keep: bool, expected: Option<Hash>, remote: JobId, policy: Policy)
    requires Local(c, k) != expected || HeadOf(q, k) != Some(remote)
    ensures !Resolvable(c, q, role, k, keep, expected, remote, policy) && ResolutionStops(c, q, c, q, role, k, keep, remote, policy)
  {
    hide PendingOf, ChoiceSucceeds, CopyGood, Chooser, StopsShort;
  }

  /** A choice carried through ends with the head recorded and loses nothing. */
  lemma ResolvedEnds(c: Client, q: Queue, c': Client, q': Queue, role: Device, k: Key, keep: bool, expected: Option<Hash>, remote: JobId, policy: Policy)
    requires Honest(q) && Inv(q) && Resolvable(c, q, role, k, keep, expected, remote, policy)
    requires ResolvedTo(c, q, c', q', role, k, keep, remote)
    ensures ResolvedSafely(c, q, c', role, k, keep, remote)
    ensures NothingLost(c, q, c', role, k, keep, remote, policy)
  {
    hide Inv, Honest, PendingOf, Chosen, Resolving, ResolvesSafely, Recoverable, Truthful, Received, Chooser, ChoiceSucceeds, LosesNothing, ResolvingBy;
    var b, ms := Chooser(c, k), ToReceive(q, role, k, remote);
    ReceivesFile(q, role, k, remote);
    ChooserLocal(c, k);
    ChoiceChosen(b, q, ms, keep, Local(c, k), policy);
    HeadKnown(q, k);
    PendingTruthful(q, role, k);
    TruthfulOf(q, remote);
    ChoiceEnds(b, k, PendingOf(q, role, k), q.jobs[remote].manifest, keep);
    var r := Resolving(b, ms, keep, Local(c, k));
    ChoiceLosesNothing(b, q, k, ms, keep, Local(c, k), policy, r, q');
    OutboxAside(b, q, k, ms, keep, Local(c, k), policy, r, c');
  }

  lemma OutboxAside(b: Client, q: Queue, k: Key, ms: seq<Manifest>, keep: bool, accepted: Option<Hash>, policy: Policy, r: Client, c': Client)
    requires LosesNothing(b, q, k, ms, keep, accepted, policy, r) && c' == WithoutOutbox(r, k)
    ensures LosesNothing(b, q, k, ms, keep, accepted, policy, c')
  {
    hide Contents;
    forall h | h in Contents(b, q, k, ms, keep, accepted, policy)
      ensures StillThere(c', k, h)
    {
      assert StillThere(r, k, h);
      if Survives(r, k, h) { SurvivesMore(r, c', k, h); }
    }
  }

  /** A choice refused half way loses nothing either. */
  lemma StopsSafely(c: Client, q: Queue, c': Client, q': Queue, role: Device, k: Key, keep: bool, remote: JobId, policy: Policy)
    requires Honest(q) && Inv(q) && ResolutionStops(c, q, c', q', role, k, keep, remote, policy)
    ensures c' in {c, Chooser(c, k)} || NothingLost(c, q, c', role, k, keep, remote, policy)
  {
    hide Inv, Honest, PendingOf, Recoverable, Truthful, Chooser, StopsShort, LosesNothing, Rebuildable;
    if c' !in {c, Chooser(c, k)} {
      ReceivesFile(q, role, k, remote);
      ChooserLocal(c, k);
      ChoiceLosesNothing(Chooser(c, k), q, k, ToReceive(q, role, k, remote), keep, Local(c, k), policy, c', q');
    }
  }
}
