/** When receptions and choices go through, in terms of what a caller can look up beforehand. */
module GoingThrough {
  import opened Base
  import opened BrokerState
  import opened BrokerInvariants
  import opened BrokerGuarantees
  import opened ClientState
  import opened Receiving
  import opened Recovery
  import opened Preservation
  import opened Resolution
  import opened SyncSystem
  import opened SyncInvariants
  import opened SyncGuarantees
  import opened ReceptionRun
  import opened Interference
  import opened Convergence
  import opened ChoiceRun
  import ChoiceAlignment
  import SessionConvergence

  // ---------------------------------------------------------------- one reception

  /** Each block of the version is cached or on the broker, or the device has acknowledged it, or the file already has the
      version's content. */
  predicate Obtainable(q: Queue, d: Device, c: Client, m: Manifest) {
    || (forall i | 0 <= i < |m.chunks| :: m.chunks[i].hash in c.cache || m.chunks[i].hash in q.chunks)
    || (m.id in q.jobs && d in q.jobs[m.id].receipts)
    || (m.sha.Some? && m.key in c.tree && m.sha == Some(Sha256(c.tree[m.key])))
  }

  lemma ObtainableReachable(s: System, d: Device, m: Manifest)
    requires SystemOk(s) && d in s.clients && IsCommitted(s.q, m) && d in s.q.jobs[m.id].recipients && Obtainable(s.q, d, s.clients[d], m)
    ensures var c := s.clients[d]; SeedsMatch(c, m) && Reachable(Seeded(c, Seeds(c, m)), s.q, m)
  {
    var c := s.clients[d];
    hide SystemOk, Truthful, Seeds, SeedsMatch, Recuts, Rebuilds, SeedHashes;
    CommittedFacts(s, d, m);
    SeedsFit(c, m);
    if m.sha.Some? && Local(c, m.key) == m.sha {
      ContentRecuts(c, m.key, m);
      SeedsOf(c, m);
      TruthfulRebuilds(m);
      assert Adopted(c, m);
      assert Hashes(m.chunks) <= Seeded(c, Seeds(c, m)).cache by { assert Seeded(c, Seeds(c, m)).cache == c.cache + SeedHashes(c, m) by { SeededCache(c, m); } }
      CachedReachable(Seeded(c, Seeds(c, m)), s.q, m);
    } else {
      AtHandFetchable(s.q, c, m, Seeds(c, m));
    }
  }

  lemma SeededCache(c: Client, m: Manifest)
    ensures Seeded(c, Seeds(c, m)).cache == c.cache + SeedHashes(c, m)
  {
  }

  /** The file is as it must be and a deletion is allowed. Without a choice the version follows the recorded one, and the file
      has its content, the recorded content, or is already gone where that was prepared; under a choice it has the content
      the choice was made on. A deletion is allowed when deletions are synchronized and a file that is there may be recycled;
      and always where the local side is kept. */
  predicate Fitting(c: Client, m: Manifest, choice: Choice, policy: Policy) {
    var k := m.key;
    var content := if k in c.tree then Some(Sha256(c.tree[k])) else None;
    var base := if k in c.files then c.files[k].sha else None;
    var head := if k in c.files then Some(c.files[k].id) else None;
    && (match choice
        case NoChoice =>
          && m.parent == head
          && (|| (m.kind == PUT && content == m.sha)
              || content == base
              || (m.kind == DELETE && content == None && m.id in c.inbox && c.inbox[m.id].phase == Ready))
        case KeepLocal(accepted) => content == accepted
        case UseServer(accepted) => content == accepted)
    && (m.kind == DELETE && !choice.KeepLocal? ==> policy.deletes && (k in c.tree ==> policy.recycle))
  }

  /** A committed version that is not applied yet and whose blocks can be had is received exactly when it fits. */
  lemma ReceivedExactly(s: System, d: Device, m: Manifest, choice: Choice, policy: Policy)
    requires SystemOk(s) && d in s.clients && IsCommitted(s.q, m) && d in s.q.jobs[m.id].recipients && Obtainable(s.q, d, s.clients[d], m)
    requires m.id in s.clients[d].inbox ==> !s.clients[d].inbox[m.id].phase.Applied?
    ensures Succeeds(s.clients[d], s.q, m, choice, policy) <==> Fitting(s.clients[d], m, choice, policy)
  {
    hide SystemOk, Truthful, Seeds, SeedsMatch, Reachable, Recuts, Rebuilds, Receipt, Seeded, Obtainable, Succeeds, Fitting, Holding, IsCommitted;
    var c := s.clients[d];
    ObtainableReachable(s, d, m);
    CommittedFacts(s, d, m);
    CommittedReceipt(s.q, d, m);
    TruthfulRebuilds(m);
    TruthfulKind(m);
    if m.kind == PUT && Local(c, m.key) == m.sha { ContentRecuts(c, m.key, m); }
    FittingSucceeds(c, s.q, m, choice, policy);
  }

  lemma FittingSucceeds(c: Client, q: Queue, m: Manifest, choice: Choice, policy: Policy)
    requires (m.id in c.inbox ==> !c.inbox[m.id].phase.Applied?) && SeedsMatch(c, m) && Reachable(Seeded(c, Seeds(c, m)), q, m)
    requires (m.kind == PUT <==> m.sha.Some?) && (m.kind == PUT ==> Rebuilds(m)) && Receipt(q, c.role, m.id, ManifestHash(m)).Done?
    requires m.kind == PUT && Local(c, m.key) == m.sha ==> m.key in c.tree && |c.tree[m.key]| == m.size
    ensures Succeeds(c, q, m, choice, policy) <==> Fitting(c, m, choice, policy)
  {
    hide Seeds, SeedsMatch, Reachable, Rebuilds, Receipt, Seeded;
  }

  lemma TruthfulKind(m: Manifest)
    requires Truthful(m)
    ensures m.kind == PUT <==> m.sha.Some?
  {
  }

  /** With the local side kept a deletion goes through though deletions are switched off: it is recorded, the file stays. */
  lemma KeepsOverDeletion(c: Client, q: Queue, m: Manifest, accepted: Option<Hash>, policy: Policy)
    requires Truthful(m) && m.kind == DELETE && !Journal(c, m, Applied) && Local(c, m.key) == accepted
    requires m.key in c.files ==> Truthful(c.files[m.key])
    requires Receipt(q, c.role, m.id, ManifestHash(m)).Done?
    ensures Succeeds(c, q, m, KeepLocal(accepted), policy)
    ensures var f := Received(c, m, KeepLocal(accepted)); f.tree == c.tree && f.files == c.files[m.key := m] && m.id !in f.inbox
  {
    hide Truthful, Recuts, Receipt;
    SeedsFit(c, m);
    TruthfulRebuilds(m);
    hide SeedsMatch, Seeds, Already;
    ReadiedForm(c, m);
    hide Readied, SeedHashes, Hashes;
  }

  /** Nothing is removed where deletions are not synchronized, or may not be recycled. */
  lemma NothingRemoved(c: Client, q: Queue, m: Manifest, choice: Choice, policy: Policy)
    requires Succeeds(c, q, m, choice, policy) && !(policy.deletes && policy.recycle)
    ensures c.tree.Keys <= Received(c, m, choice).tree.Keys
  {
    hide SeedsMatch, Seeds, Reachable, Rebuilds, Receipt, Acceptable, Confirmable, Already, Blocks;
    ReadiedForm(c, m);
    hide Readied, SeedHashes, Hashes;
  }

  /** What a reception puts in place is what the version says: the content of its digest and size, or no file. */
  lemma InstallsVersion(c: Client, q: Queue, m: Manifest, choice: Choice, policy: Policy)
    requires (m.kind == PUT <==> m.sha.Some?) && Succeeds(c, q, m, choice, policy) && !Journal(c, m, Applied) && !choice.KeepLocal?
    ensures var f := Received(c, m, choice);
      && m.key in f.files && f.files[m.key] == m
      && (m.kind == PUT ==> m.key in f.tree && m.sha == Some(Sha256(f.tree[m.key])) && m.size == |f.tree[m.key]|)
      && (m.kind == DELETE ==> m.key !in f.tree)
  {
    hide SeedsMatch, Seeds, Reachable, Receipt, Acceptable, Confirmable, Hashes, SeedHashes;
    ReadiedForm(c, m);
    hide Readied;
  }

  /** Where the file still has the recorded content, its blocks are cached before the reception ends. */
  lemma SeedsPrevious(c: Client, q: Queue, m: Manifest, choice: Choice, policy: Policy, i: nat)
    requires Succeeds(c, q, m, choice, policy) && !Journal(c, m, Applied)
    requires m.key in c.tree && m.key in c.files && c.files[m.key].sha == Some(Sha256(c.tree[m.key])) && i < |c.files[m.key].chunks|
    ensures c.files[m.key].chunks[i].hash in Received(c, m, choice).cache
  {
    hide Succeeds, Slices, Received, Reachable;
    assert SeedsMatch(c, m) by { SucceedsSeeds(c, q, m, choice, policy); }
    var b := Slices(c.tree[m.key], c.files[m.key].chunks);
    assert Seeds(c, m)[|Seeds(c, m)| - |b| + i] == b[i];
    ReceivedSeeded(c, m, choice);
  }

  lemma SucceedsSeeds(c: Client, q: Queue, m: Manifest, choice: Choice, policy: Policy)
    requires Succeeds(c, q, m, choice, policy) && !Journal(c, m, Applied)
    ensures SeedsMatch(c, m)
  {
    hide SeedsMatch;
  }

  lemma ReceivedSeeded(c: Client, m: Manifest, choice: Choice)
    requires !Journal(c, m, Applied)
    ensures Seeded(c, Seeds(c, m)).cache <= Received(c, m, choice).cache
  {
    ReadiedForm(c, m);
    hide Readied, Hashes, Already, Blocks;
    SeededCache(c, m);
    hide SeedHashes;
  }

  // ---------------------------------------------------------------- a list of receptions under a choice

  /** The version is addressed to the device, and acknowledged or at hand. */
  ghost predicate Due(q: Queue, d: Device, c: Client, m: Manifest) {
    m.id in q.jobs && d in q.jobs[m.id].recipients && (d in q.jobs[m.id].receipts || AtHand(q, c, m))
  }

  predicate Allowed(keep: bool, policy: Policy, m: Manifest) {
    keep || (policy.deletes && policy.recycle) || m.kind == PUT
  }

  /** What the receptions of a choice start from, at any point of the list. */
  ghost predicate Receptive(s: System, d: Device, k: Key, ms: seq<Manifest>, keep: bool, accepted: Option<Hash>, policy: Policy) {
    && SystemOk(s) && d in s.clients && s.clients[d].chose
    && Local(s.clients[d], k) == accepted
    && (forall i | 0 <= i < |ms| :: ms[i].key == k && IsCommitted(s.q, ms[i]))
    && (forall i | 0 <= i < |ms| :: Due(s.q, d, s.clients[d], ms[i]) && Allowed(keep, policy, ms[i]))
  }

  lemma ReceptiveParts(s: System, d: Device, k: Key, ms: seq<Manifest>, keep: bool, accepted: Option<Hash>, policy: Policy)
    requires Receptive(s, d, k, ms, keep, accepted, policy)
    ensures SystemOk(s) && d in s.clients && s.clients[d].chose && Local(s.clients[d], k) == accepted
    ensures forall i | 0 <= i < |ms| :: ms[i].key == k && IsCommitted(s.q, ms[i])
    ensures forall i | 0 <= i < |ms| :: Due(s.q, d, s.clients[d], ms[i]) && Allowed(keep, policy, ms[i])
  {
    hide SystemOk, IsCommitted, Due, Allowed, Local;
  }

  lemma ReceptiveFrom(s: System, d: Device, k: Key, ms: seq<Manifest>, keep: bool, accepted: Option<Hash>, policy: Policy)
    requires SystemOk(s) && d in s.clients && s.clients[d].chose && Local(s.clients[d], k) == accepted
    requires forall i | 0 <= i < |ms| :: ms[i].key == k && IsCommitted(s.q, ms[i])
    requires forall i | 0 <= i < |ms| :: Due(s.q, d, s.clients[d], ms[i]) && Allowed(keep, policy, ms[i])
    ensures Receptive(s, d, k, ms, keep, accepted, policy)
  {
    hide SystemOk, IsCommitted, Due, Allowed, Local;
  }

  lemma FirstSucceeds(s: System, d: Device, k: Key, ms: seq<Manifest>, keep: bool, accepted: Option<Hash>, policy: Policy)
    requires Receptive(s, d, k, ms, keep, accepted, policy) && ms != []
    ensures Succeeds(s.clients[d], s.q, ms[0], ChoiceOf(keep, accepted), policy)
  {
    hide SystemOk, AtHand, Succeeds, Receptive, IsCommitted, Obtainable;
    ReceptiveParts(s, d, k, ms, keep, accepted, policy);
    var c, m := s.clients[d], ms[0];
    if Journal(c, m, Applied) {
      AppliedThrough(s, d, m, ChoiceOf(keep, accepted), policy);
    } else {
      HandObtains(s.q, d, c, m);
      ReceivedExactly(s, d, m, ChoiceOf(keep, accepted), policy);
    }
  }

  lemma HandObtains(q: Queue, d: Device, c: Client, m: Manifest)
    requires m.id in q.jobs && (d in q.jobs[m.id].receipts || AtHand(q, c, m))
    ensures Obtainable(q, d, c, m)
  {
    if AtHand(q, c, m) {
      forall i | 0 <= i < |m.chunks|
        ensures m.chunks[i].hash in c.cache || m.chunks[i].hash in q.chunks
      {
        SomeHash(m.chunks, i);
      }
    }
  }

  /** An applied version only has its receipt sent. */
  lemma AppliedThrough(s: System, d: Device, m: Manifest, choice: Choice, policy: Policy)
    requires SystemOk(s) && d in s.clients && IsCommitted(s.q, m) && Journal(s.clients[d], m, Applied)
    ensures Succeeds(s.clients[d], s.q, m, choice, policy)
  {
    hide SystemOk, Truthful, Receipt, Recuts, Rebuilds;
    AppliedHeld(s, d, m);
    hide Hashes;
    CommittedFacts(s, d, m);
    CommittedReceipt(s.q, d, m);
    TruthfulRebuilds(m);
    Recovery.Confirms(s.clients[d], s.q, m);
  }

  lemma AppliedHeld(s: System, d: Device, m: Manifest)
    requires SystemOk(s) && d in s.clients && IsCommitted(s.q, m) && Journal(s.clients[d], m, Applied)
    ensures Hashes(m.chunks) <= s.clients[d].cache
  {
    hide SystemOk, DeviceInv, HeadsCommitted, OutboxOwn, Hashes, RowsKnown, BlocksKept;
    DeviceOf(s, d);
    RowHeld(s.q, d, s.clients[d], m);
  }

  lemma RowHeld(q: Queue, d: Device, c: Client, m: Manifest)
    requires RowsKnown(q, c) && BlocksKept(q, d, c) && IsCommitted(q, m) && Journal(c, m, Applied)
    ensures Hashes(m.chunks) <= c.cache
  {
    hide Hashes;
    assert c.inbox[m.id].manifest == m;
    assert Holding(c, c.inbox[m.id].manifest);
  }

  /** What one of the receptions leaves for the others. */
  lemma ReceptiveNext(s: System, d: Device, k: Key, ms: seq<Manifest>, keep: bool, accepted: Option<Hash>, policy: Policy)
    requires Receptive(s, d, k, ms, keep, accepted, policy) && ms != []
    ensures var c := s.clients[d]; var choice := ChoiceOf(keep, accepted);
      var t := System(ReceivedBy(c, s.q, ms[0]), s.clients[d := Received(c, ms[0], choice)]);
      Receptive(t, d, k, ms[1..], keep, NextAccepted(c, ms[0], keep, accepted), policy)
  {
    hide SystemOk, AtHand, Succeeds, IsCommitted, Received, ReceivedBy, Run, Reception, Truthful, AcksOnly, KeepsOthers, Receptive, NextAccepted;
    ReceptiveParts(s, d, k, ms, keep, accepted, policy);
    var c, m, choice := s.clients[d], ms[0], ChoiceOf(keep, accepted);
    var f, q' := Received(c, m, choice), ReceivedBy(c, s.q, m);
    FirstSucceeds(s, d, k, ms, keep, accepted, policy);
    RoleOf(s, d);
    ChosenStep(s, d, ms, choice, policy);
    NextContent(s, d, m, keep, accepted);
    AckFrame(s, d, m);
    KeepsCache(c, m, choice);
    forall i | 0 <= i < |ms[1..]|
      ensures ms[1..][i].key == k && IsCommitted(q', ms[1..][i])
      ensures Due(q', d, f, ms[1..][i]) && Allowed(keep, policy, ms[1..][i])
    {
      assert ms[1..][i] == ms[i + 1];
      RestReceptive(s, d, c, f, q', m, ms[i + 1]);
    }
    ReceptiveFrom(System(q', s.clients[d := f]), d, k, ms[1..], keep, NextAccepted(c, m, keep, accepted), policy);
  }

  lemma KeepsCache(c: Client, m: Manifest, choice: Choice)
    ensures c.cache <= Received(c, m, choice).cache
  {
    ReceivedKeeps(c, m, choice);
    hide Received;
  }

  /** The file's content after a reception is the one the next is accepted on. */
  lemma NextContent(s: System, d: Device, m: Manifest, keep: bool, accepted: Option<Hash>)
    requires SystemOk(s) && d in s.clients && IsCommitted(s.q, m) && Local(s.clients[d], m.key) == accepted
    ensures Local(Received(s.clients[d], m, ChoiceOf(keep, accepted)), m.key) == NextAccepted(s.clients[d], m, keep, accepted)
  {
    var c, choice := s.clients[d], ChoiceOf(keep, accepted);
    hide SystemOk, Truthful;
    CommittedFacts(s, d, m);
    ReceivedKeeps(c, m, choice);
    if Journal(c, m, Applied) { AppliedSame(c, m, choice); }
    hide Received;
  }

  lemma AckFrame(s: System, d: Device, m: Manifest)
    requires SystemOk(s) && d in s.clients && s.clients[d].role == d && IsCommitted(s.q, m)
    ensures var q' := ReceivedBy(s.clients[d], s.q, m); AcksOnly(s.q, q', d, m.id) && KeepsOthers(s.q, q', d, m.id)
  {
    hide SystemOk, Inv, Honest, FilesTracked, Acknowledge, AcksOnly, KeepsOthers;
    PartsOf(s);
    CommittedReceipt(s.q, d, m);
    AcknowledgedFrame(s.q, d, m);
  }

  lemma RestReceptive(s: System, d: Device, c: Client, f: Client, q': Queue, done: Manifest, m: Manifest)
    requires SystemOk(s) && d in s.clients && c == s.clients[d] && IsCommitted(s.q, m) && IsCommitted(s.q, done) && d in s.q.jobs[m.id].recipients
    requires AcksOnly(s.q, q', d, done.id) && KeepsOthers(s.q, q', d, done.id) && c.cache <= f.cache
    requires d in s.q.jobs[m.id].receipts || AtHand(s.q, c, m)
    ensures Due(q', d, f, m)
  {
    hide SystemOk, Truthful, Hashes;
    CommittedFacts(s, d, m);
    hide Holding;
  }

  lemma {:induction false} ListGoesThrough(s: System, d: Device, k: Key, ms: seq<Manifest>, keep: bool, accepted: Option<Hash>, policy: Policy)
    requires Receptive(s, d, k, ms, keep, accepted, policy)
    ensures d in s.clients && ChoiceSucceeds(s.clients[d], s.q, ms, keep, accepted, policy)
    decreases |ms|
  {
    ReceptiveDevice(s, d, k, ms, keep, accepted, policy);
    hide Receptive, Succeeds, Received, ReceivedBy, NextAccepted;
    if ms != [] {
      var c := s.clients[d];
      var t := System(ReceivedBy(c, s.q, ms[0]), s.clients[d := Received(c, ms[0], ChoiceOf(keep, accepted))]);
      FirstSucceeds(s, d, k, ms, keep, accepted, policy);
      ReceptiveNext(s, d, k, ms, keep, accepted, policy);
      ListGoesThrough(t, d, k, ms[1..], keep, NextAccepted(c, ms[0], keep, accepted), policy);
    }
  }

  lemma ReceptiveDevice(s: System, d: Device, k: Key, ms: seq<Manifest>, keep: bool, accepted: Option<Hash>, policy: Policy)
    requires Receptive(s, d, k, ms, keep, accepted, policy)
    ensures d in s.clients
  {
  }

  // ---------------------------------------------------------------- a whole choice

  /** The device is bound, a copy of the content that exists already is sound, every block of what it is owed for the file
      is at hand, and where the server's side wins deletions are allowed or do not occur. */
  ghost predicate ChoiceReady(s: System, d: Device, k: Key, keep: bool, policy: Policy) {
    && SystemOk(s) && d in s.clients && (k.dataset, d) in s.q.bindings
    && (k in s.clients[d].tree ==>
          var copy := (Sha256(s.clients[d].tree[k]), k.path);
          copy in s.clients[d].recovery ==> Sha256(s.clients[d].recovery[copy]) == Sha256(s.clients[d].tree[k]))
    && (forall m | IsCommitted(s.q, m) && m.key == k && d !in s.q.jobs[m.id].receipts :: AtHand(s.q, s.clients[d], m))
    && (keep || (policy.deletes && policy.recycle) || forall id | id in s.q.jobs && s.q.jobs[id].manifest.key == k :: s.q.jobs[id].manifest.kind == PUT)
  }

  /** The file's content and its head are the ones given, and a head that the device has acknowledged leaves no version of
      the file unacknowledged. */
  ghost predicate AsInspected(c: Client, q: Queue, d: Device, k: Key, expected: Option<Hash>, remote: JobId) {
    && (if k in c.tree then expected == Some(Sha256(c.tree[k])) else expected == None)
    && k in q.heads && q.heads[k] == remote && remote in q.jobs
    && (d in q.jobs[remote].receipts ==>
          forall id | id in q.jobs && q.jobs[id].Committed() && q.jobs[id].manifest.key == k :: d in q.jobs[id].receipts)
  }

  /** A choice goes through exactly when both sides are as they were inspected and, should the device have acknowledged the
      head, it has acknowledged every version of the file; however many versions are pending, whichever side is chosen. */
  lemma ChoiceGoesThrough(s: System, d: Device, k: Key, keep: bool, expected: Option<Hash>, remote: JobId, policy: Policy)
    requires ChoiceReady(s, d, k, keep, policy)
    ensures Resolvable(s.clients[d], s.q, d, k, keep, expected, remote, policy) <==> AsInspected(s.clients[d], s.q, d, k, expected, remote)
  {
    hide SystemOk, Inv, Honest, FilesTracked, PendingOf, ChoiceSucceeds, ChoiceReady, Chooser, CopyGood, ToReceive;
    ReadyParts(s, d, k, keep, policy);
    var c := s.clients[d];
    PartsOf(s);
    HeadKnown(s.q, k);
    CopyIsGood(c, k);
    if Local(c, k) == expected && HeadOf(s.q, k) == Some(remote) {
      PendingEnds(s.q, d, k, remote);
      ReceptionsGoThrough(s, d, k, keep, remote, policy);
    }
  }

  lemma CopyIsGood(c: Client, k: Key)
    requires k in c.tree ==>
      (Sha256(c.tree[k]), k.path) in c.recovery ==> Sha256(c.recovery[(Sha256(c.tree[k]), k.path)]) == Sha256(c.tree[k])
    ensures CopyGood(Chooser(c, k), k)
  {
  }

  lemma ReceptionsGoThrough(s: System, d: Device, k: Key, keep: bool, remote: JobId, policy: Policy)
    requires ChoiceReady(s, d, k, keep, policy) && remote in s.q.jobs && HeadOf(s.q, k) == Some(remote)
    ensures ChoiceSucceeds(Chooser(s.clients[d], k), s.q, ToReceive(s.q, d, k, remote), keep, Local(s.clients[d], k), policy)
  {
    hide SystemOk, Inv, Honest, FilesTracked, PendingOf, ChoiceSucceeds, AtHand, Run, IsCommitted, Truthful, ChoiceReady, Receptive, Due, Allowed, Chooser;
    ReadyParts(s, d, k, keep, policy);
    var c, ms := s.clients[d], ToReceive(s.q, d, k, remote);
    var b := With(s, d, Chooser(c, k));
    PartsOf(s);
    ChoosesRun(s, d, k);
    RunOk(s, [Chooses(d), Backs(d, k)]);
    ToReceiveCommitted(s.q, d, k, remote);
    ReceivesFile(s.q, d, k, remote);
    ChooserStill(c, k);
    ChooserLocal(c, k);
    forall i | 0 <= i < |ms|
      ensures Due(s.q, d, Chooser(c, k), ms[i]) && Allowed(keep, policy, ms[i])
    {
      OneReady(s, d, k, keep, policy, ms[i]);
    }
    hide ToReceive;
    ReceptiveFrom(b, d, k, ms, keep, Local(c, k), policy);
    ListGoesThrough(b, d, k, ms, keep, Local(c, k), policy);
  }

  lemma ReadyParts(s: System, d: Device, k: Key, keep: bool, policy: Policy)
    requires ChoiceReady(s, d, k, keep, policy)
    ensures SystemOk(s) && d in s.clients && (k.dataset, d) in s.q.bindings
    ensures var c := s.clients[d]; k in c.tree ==>
      (Sha256(c.tree[k]), k.path) in c.recovery ==> Sha256(c.recovery[(Sha256(c.tree[k]), k.path)]) == Sha256(c.tree[k])
  {
    hide SystemOk, AtHand, IsCommitted;
  }

  lemma OneReady(s: System, d: Device, k: Key, keep: bool, policy: Policy, m: Manifest)
    requires ChoiceReady(s, d, k, keep, policy) && IsCommitted(s.q, m) && m.key == k
    ensures Due(s.q, d, Chooser(s.clients[d], k), m) && Allowed(keep, policy, m)
  {
    hide SystemOk, Inv, Honest, FilesTracked, Hashes;
    PartsOf(s);
    BoundRecipients(s.q, m.id, d);
    hide Backup;
    assert Chooser(s.clients[d], k).cache == s.clients[d].cache by { ChooserCache(s.clients[d], k); }
  }

  lemma ChooserCache(c: Client, k: Key)
    ensures Chooser(c, k).cache == c.cache
  {
  }

  // ---------------------------------------------------------------- what is pending ends with the head

  /** Sequence numbers rise along the list. */
  ghost predicate Rising(q: Queue, ms: seq<Manifest>) {
    && (forall i | 0 <= i < |ms| :: ms[i].id in q.jobs)
    && forall i, j | 0 <= i < j < |ms| :: q.jobs[ms[i].id].number < q.jobs[ms[j].id].number
  }

  lemma {:induction false} OfFileRising(q: Queue, ms: seq<Manifest>, k: Key)
    requires Rising(q, ms)
    ensures Rising(q, OfFile(ms, k)) && forall m | m in OfFile(ms, k) :: m in ms
    decreases |ms|
  {
    if ms != [] {
      var last := |ms| - 1;
      assert Rising(q, ms[..last]);
      OfFileRising(q, ms[..last], k);
      var before := OfFile(ms[..last], k);
      forall i | 0 <= i < |before|
        ensures before[i].id in q.jobs && q.jobs[before[i].id].number < q.jobs[ms[last].id].number
      {
        assert before[i] in ms[..last];
        var j :| 0 <= j < last && ms[..last][j] == before[i];
        assert ms[j] == before[i];
      }
    }
  }

  lemma PendingRising(q: Queue, d: Device, k: Key)
    requires Inv(q) && (k.dataset, d) in q.bindings
    ensures Rising(q, PendingOf(q, d, k))
  {
    PendingExact(q, d, k.dataset);
    var p := Pending(q, d, k.dataset);
    assert WellFormed(q.jobs);
    hide Inv, Pending, ParentsFirst, WellFormed;
    SessionConvergence.PendingKnown(q, d, k.dataset);
    AnsweredAt(q, p);
    assert Rising(q, Answered(q, p));
    hide Answered;
    OfFileRising(q, Answered(q, p), k);
  }

  lemma HeadLast(q: Queue, k: Key, remote: JobId, id: JobId)
    requires Inv(q) && HeadOf(q, k) == Some(remote) && id in q.jobs && q.jobs[id].Committed() && q.jobs[id].manifest.key == k
    ensures remote in q.jobs && (id == remote || q.jobs[id].number < q.jobs[remote].number)
  {
    assert Headed(q.jobs, q.heads) && Parented(q.jobs);
    hide Inv, Lineage, Parented;
    LineageMembers(q.jobs, remote, id);
  }

  /** What is pending for a file is nothing, or ends with the head, exactly when nothing is pending before an acknowledged head. */
  lemma PendingEnds(q: Queue, d: Device, k: Key, remote: JobId)
    requires Inv(q) && (k.dataset, d) in q.bindings && HeadOf(q, k) == Some(remote) && remote in q.jobs
    ensures var ms := PendingOf(q, d, k);
      (ms == [] || ms[|ms| - 1].id == remote)
      <==> (d in q.jobs[remote].receipts ==>
              forall id | id in q.jobs && q.jobs[id].Committed() && q.jobs[id].manifest.key == k :: d in q.jobs[id].receipts)
  {
    hide Inv, PendingOf;
    HeadKnown(q, k);
    HeadCommitted(q, k);
    var ms := PendingOf(q, d, k);
    PendingLacks(q, d, k);
    PendingRising(q, d, k);
    if d !in q.jobs[remote].receipts {
      ChoiceAlignment.PendingHas(q, d, k, remote);
      var i :| 0 <= i < |ms| && ms[i] == q.jobs[remote].manifest;
      var last := ms[|ms| - 1];
      assert last in ms;
      HeadLast(q, k, remote, last.id);
    } else {
      if ms != [] {
        assert ms[|ms| - 1] in ms;
      }
      forall id | id in q.jobs && q.jobs[id].Committed() && q.jobs[id].manifest.key == k && d !in q.jobs[id].receipts
        ensures ms != []
      {
        ChoiceAlignment.PendingHas(q, d, k, id);
      }
    }
  }

  lemma HeadCommitted(q: Queue, k: Key)
    requires Inv(q)
    ensures k in q.heads ==> q.heads[k] in q.jobs && q.jobs[q.heads[k]].Committed()
  {
    assert Headed(q.jobs, q.heads);
    hide Inv, Lineage;
  }

  lemma PendingLacks(q: Queue, d: Device, k: Key)
    requires Inv(q) && (k.dataset, d) in q.bindings
    ensures forall m | m in PendingOf(q, d, k) :: IsCommitted(q, m) && m.key == k && d !in q.jobs[m.id].receipts
  {
    hide Inv, Pending, ParentsFirst, Ascending, WellFormed, OfFile, Answered;
    PendingExact(q, d, k.dataset);
    var p := Pending(q, d, k.dataset);
    WellFormedOf(q);
    SessionConvergence.PendingKnown(q, d, k.dataset);
    AnsweredAt(q, p);
    OfFileMembers(Answered(q, p), k);
    forall m | m in PendingOf(q, d, k)
      ensures IsCommitted(q, m) && m.key == k && d !in q.jobs[m.id].receipts
    {
      assert m in OfFile(Answered(q, p), k);
      var i :| 0 <= i < |p| && Answered(q, p)[i] == m;
      assert p[i] in p && Lacks(q, d, k.dataset, p[i]);
    }
  }

  lemma WellFormedOf(q: Queue)
    requires Inv(q)
    ensures WellFormed(q.jobs)
  {
    hide Numbered, WellFormed, Parented, Headed, OnlyChildren, ReceiptsBacked, BoundReceive, FilesTracked, StagedTracked, WithinQuota;
  }
}
