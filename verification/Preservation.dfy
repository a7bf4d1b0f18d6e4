/** Content that a reception displaces can be brought back, also when the user has chosen between versions. */
module Preservation {
  import opened Base
  import opened BrokerState
  import opened ClientState
  import opened Receiving
  import opened Recovery

  /** The content can be put together from cached blocks. */
  ghost predicate Rebuildable(c: Client, h: Hash) {
    exists chunks: seq<Chunk> :: Hashes(chunks) <= c.cache && Sha256(Blocks(chunks)) == h
  }

  /** There is a recovery copy of the content under its own name. */
  predicate Recoverable(c: Client, k: Key, h: Hash) {
    (h, k.path) in c.recovery && Sha256(c.recovery[(h, k.path)]) == h
  }

  ghost predicate Survives(c: Client, k: Key, h: Hash) {
    Recoverable(c, k, h) || Rebuildable(c, h)
  }

  /** Nothing that is kept is ever dropped. */
  predicate KeepsMore(c: Client, c': Client) {
    c.cache <= c'.cache && c'.recovery == c.recovery
  }

  lemma SurvivesMore(c: Client, c': Client, k: Key, h: Hash)
    requires Survives(c, k, h) && KeepsMore(c, c')
    ensures Survives(c', k, h)
  {
    if !Recoverable(c, k, h) {
      var chunks: seq<Chunk> :| Hashes(chunks) <= c.cache && Sha256(Blocks(chunks)) == h;
      hide Blocks, Hashes;
      assert Hashes(chunks) <= c'.cache;
    }
  }

  // ---------------------------------------------------------------- the recorded base

  /** Seeding from the working file caches every block of the recorded version that it still holds. */
  lemma BaseSeeded(c: Client, m: Manifest)
    requires AtBase(c, m.key) && SeedsMatch(c, m)
    ensures Hashes(c.files[m.key].chunks) <= SeedHashes(c, m)
  {
    SeedsOf(c, m);
    hide SeedHashes, Seeds, SeedsMatch, Hashes;
  }

  /** A point of a reception at which the working file may differ from what it was. */
  predicate Displacing(p: Crash) {
    p.Settling? || p.Recording? || p.Receipting? || p.Collecting?
  }

  /** What a reception leaves alone: copies, cached blocks, other files, and the file itself when it stays. */
  ghost predicate LeavesRest(c: Client, i: Client, k: Key, stays: bool) {
    KeepsMore(c, i) && (forall other | other != k :: Local(i, other) == Local(c, other)) && (stays ==> i.tree == c.tree)
  }

  lemma InterruptedKeeps(c: Client, m: Manifest, choice: Choice, p: Crash)
    requires Possible(c, m, p)
    ensures LeavesRest(c, Interrupted(c, m, choice, p), m.key, !Displacing(p) || Journal(c, m, Applied) || Stays(c, m, choice))
    ensures Displacing(p) && !Journal(c, m, Applied) ==> SeedHashes(c, m) <= Interrupted(c, m, choice, p).cache
  {
    hide Readied, Seeds, Stays, Hashes, SeedHashes, LeavesRest;
    if Displacing(p) {
      LateKeeps(c, m, choice, p);
    } else {
      EarlyKeeps(c, m, choice, p);
    }
  }

  lemma EarlyKeeps(c: Client, m: Manifest, choice: Choice, p: Crash)
    requires Possible(c, m, p) && !Displacing(p)
    ensures LeavesRest(c, Interrupted(c, m, choice, p), m.key, true)
  {
    hide Readied, Seeds, Stays, Hashes, SeedHashes;
    ReadiedForm(c, m);
  }

  lemma SettledKeeps(c: Client, m: Manifest, choice: Choice)
    ensures var t := Settled(Readied(c, m), m, Stays(c, m, choice));
      LeavesRest(c, t, m.key, Stays(c, m, choice)) && SeedHashes(c, m) <= t.cache
  {
    hide Readied, Seeds, Stays, Blocks, Hashes, SeedHashes;
    ReadiedForm(c, m);
  }

  lemma AppliesKeeps(c: Client, t: Client, m: Manifest, stays: bool)
    requires LeavesRest(c, t, m.key, stays) && m.id in t.inbox
    ensures LeavesRest(c, Accepted(t, m), m.key, stays) && Accepted(t, m).cache == t.cache
  {
  }

  lemma LateKeeps(c: Client, m: Manifest, choice: Choice, p: Crash)
    requires Possible(c, m, p) && Displacing(p)
    ensures LeavesRest(c, Interrupted(c, m, choice, p), m.key, Journal(c, m, Applied) || Stays(c, m, choice))
    ensures !Journal(c, m, Applied) ==> SeedHashes(c, m) <= Interrupted(c, m, choice, p).cache
  {
    SameKeeps(c, m.key);
    SettledRow(c, m, choice);
    hide Readied, Seeds, Stays, Blocks, Hashes, SeedHashes, LeavesRest, Accepted, Settled;
    SettledKeeps(c, m, choice);
    AppliesKeeps(c, Settled(Readied(c, m), m, Stays(c, m, choice)), m, Stays(c, m, choice));
  }

  lemma SettledRow(c: Client, m: Manifest, choice: Choice)
    ensures m.id in Settled(Readied(c, m), m, Stays(c, m, choice)).inbox
  {
    hide Readied, Stays, Blocks;
    ReadiedForm(c, m);
  }

  lemma SameKeeps(c: Client, k: Key)
    ensures LeavesRest(c, c, k, true)
  {
  }

  /** Without an explicit choice, whatever a reception replaces or removes equals the recorded version, and at every
      later point, power loss included, it can be rebuilt from the cache. */
  lemma DisplacedIsBase(c: Client, m: Manifest, p: Crash)
    requires Possible(c, m, p) && (Journal(c, m, Applied) || (Acceptable(c, m, NoChoice) && SeedsMatch(c, m)))
    requires m.key in c.files ==> Truthful(c.files[m.key])
    requires Local(c, m.key).Some? && Local(Interrupted(c, m, NoChoice, p), m.key) != Local(c, m.key)
    ensures Local(c, m.key) == RecordedSha(c, m.key)
    ensures Rebuildable(Interrupted(c, m, NoChoice, p), Local(c, m.key).value)
  {
    InterruptedKeeps(c, m, NoChoice, p);
    hide Interrupted;
    assert AtBase(c, m.key);
    BaseSeeded(c, m);
    hide SeedHashes, Seeds, SeedsMatch, Hashes, Blocks;
    assert Sha256(Blocks(c.files[m.key].chunks)) == Local(c, m.key).value;
  }

  // ---------------------------------------------------------------- an explicit choice

  function ChoiceOf(keep: bool, accepted: Option<Hash>): Choice {
    if keep then KeepLocal(accepted) else UseServer(accepted)
  }

  /** With the server's side chosen, the content accepted for replacement follows what was just received. */
  function NextAccepted(c: Client, m: Manifest, keep: bool, accepted: Option<Hash>): Option<Hash> {
    if keep || Journal(c, m, Applied) then accepted else m.sha
  }

  /** The versions of one file received one after the other under a choice. */
  function Resolving(c: Client, ms: seq<Manifest>, keep: bool, accepted: Option<Hash>): Client
    decreases |ms|
  {
    if ms == [] then c
    else Resolving(Received(c, ms[0], ChoiceOf(keep, accepted)), ms[1..], keep, NextAccepted(c, ms[0], keep, accepted))
  }

  /** Each of the receptions found the content the choice was made for. */
  predicate Chosen(c: Client, ms: seq<Manifest>, keep: bool, accepted: Option<Hash>)
    decreases |ms|
  {
    ms == []
    || (&& (Journal(c, ms[0], Applied) || Acceptable(c, ms[0], ChoiceOf(keep, accepted)))
        && Chosen(Received(c, ms[0], ChoiceOf(keep, accepted)), ms[1..], keep, NextAccepted(c, ms[0], keep, accepted)))
  }

  /** At whatever point of the reception power is lost, displaced content survives. */
  ghost predicate DisplacesSafely(c: Client, m: Manifest, choice: Choice) {
    forall p | Possible(c, m, p) && Local(c, m.key).Some? && Local(Interrupted(c, m, choice, p), m.key) != Local(c, m.key) ::
      Survives(Interrupted(c, m, choice, p), m.key, Local(c, m.key).value)
  }

  ghost predicate ResolvesSafely(c: Client, ms: seq<Manifest>, keep: bool, accepted: Option<Hash>)
    decreases |ms|
  {
    ms == []
    || (&& DisplacesSafely(c, ms[0], ChoiceOf(keep, accepted))
        && ResolvesSafely(Received(c, ms[0], ChoiceOf(keep, accepted)), ms[1..], keep, NextAccepted(c, ms[0], keep, accepted)))
  }

  lemma StepSafe(c: Client, m: Manifest, keep: bool, accepted: Option<Hash>)
    requires Journal(c, m, Applied) || Acceptable(c, m, ChoiceOf(keep, accepted))
    requires accepted.Some? ==> Survives(c, m.key, accepted.value)
    ensures DisplacesSafely(c, m, ChoiceOf(keep, accepted))
  {
    var choice := ChoiceOf(keep, accepted);
    forall p | Possible(c, m, p) && Local(c, m.key).Some? && Local(Interrupted(c, m, choice, p), m.key) != Local(c, m.key)
      ensures Survives(Interrupted(c, m, choice, p), m.key, Local(c, m.key).value)
    {
      InterruptedKeeps(c, m, choice, p);
      hide Interrupted, Survives, Already, Possible;
      SurvivesMore(c, Interrupted(c, m, choice, p), m.key, accepted.value);
    }
  }

  lemma ReceivedKeeps(c: Client, m: Manifest, choice: Choice)
    ensures KeepsMore(c, Received(c, m, choice))
    ensures !Journal(c, m, Applied) ==> Hashes(m.chunks) <= Received(c, m, choice).cache
    ensures !Journal(c, m, Applied) ==> Recorded(Received(c, m, choice), m.key) == Some(m.id)
    ensures choice.KeepLocal? ==> Received(c, m, choice).tree == c.tree
    ensures choice.UseServer? && !Journal(c, m, Applied) && Truthful(m) ==> Local(Received(c, m, choice), m.key) == m.sha
  {
    hide Readied, Seeds, SeedHashes, Hashes, Blocks, Already, Truthful;
    ReadiedForm(c, m);
    if choice.UseServer? && !Journal(c, m, Applied) && Truthful(m) {
      ServerContent(c, m, choice);
    }
    hide Received;
  }

  lemma ServerContent(c: Client, m: Manifest, choice: Choice)
    requires choice.UseServer? && !Journal(c, m, Applied) && Truthful(m)
    ensures Local(Received(c, m, choice), m.key) == m.sha
  {
    hide Readied, Seeds, SeedHashes, Hashes, Blocks;
    ReadiedForm(c, m);
  }

  lemma NextSurvives(c: Client, m: Manifest, keep: bool, accepted: Option<Hash>)
    requires Truthful(m) && (accepted.Some? ==> Survives(c, m.key, accepted.value))
    ensures var f := Received(c, m, ChoiceOf(keep, accepted)); var next := NextAccepted(c, m, keep, accepted);
      next.Some? ==> Survives(f, m.key, next.value)
  {
    var choice := ChoiceOf(keep, accepted);
    ReceivedKeeps(c, m, choice);
    var f := Received(c, m, choice);
    if keep || Journal(c, m, Applied) {
      hide Received, Survives, Truthful;
      if accepted.Some? { SurvivesMore(c, f, m.key, accepted.value); }
    } else if m.sha.Some? {
      assert Sha256(Blocks(m.chunks)) == m.sha.value;
      hide Received, Truthful, Blocks, Hashes;
      assert Rebuildable(f, m.sha.value);
    }
  }

  /** Under an explicit choice every content displaced on the way survives: the inspected one as a recovery copy,
      the versions passed through in the cache. */
  lemma {:induction false} ResolutionSafe(c: Client, k: Key, ms: seq<Manifest>, keep: bool, accepted: Option<Hash>)
    requires Chosen(c, ms, keep, accepted) && (accepted.Some? ==> Survives(c, k, accepted.value))
    requires forall i | 0 <= i < |ms| :: Truthful(ms[i]) && ms[i].key == k
    ensures ResolvesSafely(c, ms, keep, accepted)
    decreases |ms|
  {
    hide Truthful, Received, Survives, DisplacesSafely;
    if ms != [] {
      StepSafe(c, ms[0], keep, accepted);
      NextSurvives(c, ms[0], keep, accepted);
      ResolutionSafe(Received(c, ms[0], ChoiceOf(keep, accepted)), k, ms[1..], keep, NextAccepted(c, ms[0], keep, accepted));
    }
  }

  lemma {:induction false} KeepsTree(c: Client, ms: seq<Manifest>, keep: bool, accepted: Option<Hash>)
    ensures keep ==> Resolving(c, ms, keep, accepted).tree == c.tree
    decreases |ms|
  {
    hide Received;
    if ms != [] {
      ReceivedKeeps(c, ms[0], ChoiceOf(keep, accepted));
      KeepsTree(Received(c, ms[0], ChoiceOf(keep, accepted)), ms[1..], keep, NextAccepted(c, ms[0], keep, accepted));
    }
  }

  lemma {:induction false} ResolvingLast(c: Client, ms: seq<Manifest>, head: Manifest, keep: bool, accepted: Option<Hash>)
    requires Truthful(head) && !Journal(Resolving(c, ms, keep, accepted), head, Applied)
    ensures var before := Resolving(c, ms, keep, accepted); var f := Resolving(c, ms + [head], keep, accepted);
      && Recorded(f, head.key) == Some(head.id)
      && (keep ==> f.tree == before.tree)
      && (!keep ==> Local(f, head.key) == head.sha)
    decreases |ms|
  {
    hide Received, Truthful;
    if ms == [] {
      assert ms + [head] == [head];
      ReceivedKeeps(c, head, ChoiceOf(keep, accepted));
      assert Resolving(Received(c, head, ChoiceOf(keep, accepted)), [], keep, NextAccepted(c, head, keep, accepted))
          == Received(c, head, ChoiceOf(keep, accepted));
    } else {
      assert (ms + [head])[0] == ms[0] && (ms + [head])[1..] == ms[1..] + [head];
      ResolvingLast(Received(c, ms[0], ChoiceOf(keep, accepted)), ms[1..], head, keep, NextAccepted(c, ms[0], keep, accepted));
    }
  }

  // ---------------------------------------------------------------- what a session under a choice needs to know

  lemma ResolvingNext(c: Client, ms: seq<Manifest>, i: nat, keep: bool, accepted: Option<Hash>)
    requires i < |ms|
    ensures var f := Received(c, ms[i], ChoiceOf(keep, accepted)); var next := NextAccepted(c, ms[i], keep, accepted);
      && Resolving(c, ms[i..], keep, accepted) == Resolving(f, ms[i + 1..], keep, next)
      && (Chosen(c, ms[i..], keep, accepted)
          <==> (Journal(c, ms[i], Applied) || Acceptable(c, ms[i], ChoiceOf(keep, accepted))) && Chosen(f, ms[i + 1..], keep, next))
  {
    hide Received, NextAccepted, Acceptable;
    assert ms[i..][0] == ms[i] && ms[i..][1..] == ms[i + 1..];
  }

  lemma SucceedsChosen(c: Client, q: Queue, m: Manifest, choice: Choice, policy: Policy)
    requires Succeeds(c, q, m, choice, policy)
    ensures Journal(c, m, Applied) || Acceptable(c, m, choice)
  {
    hide Acceptable, SeedsMatch, Reachable, Rebuilds, Receipt, Confirmable;
  }

  /** Displaced content survives a whole choice once the inspected content has a verified copy; and the head ends recorded,
      with kept content untouched and otherwise the head's content in place. */
  lemma ChoiceEnds(b: Client, k: Key, ms: seq<Manifest>, head: Manifest, keep: bool)
    requires Local(b, k).Some? ==> Recoverable(b, k, Local(b, k).value)
    requires Chosen(b, ms + [head], keep, Local(b, k))
    requires forall i | 0 <= i < |ms| :: Truthful(ms[i]) && ms[i].key == k
    requires Truthful(head) && head.key == k
    ensures ResolvesSafely(b, ms + [head], keep, Local(b, k))
    ensures !Journal(Resolving(b, ms, keep, Local(b, k)), head, Applied) ==>
              var f := Resolving(b, ms + [head], keep, Local(b, k));
              && Recorded(f, k) == Some(head.id)
              && (if keep then f.tree == b.tree else Local(f, k) == head.sha)
  {
    hide Received, Truthful, Recoverable, Rebuildable, Resolving, Chosen, ResolvesSafely;
    ResolutionSafe(b, k, ms + [head], keep, Local(b, k));
    if !Journal(Resolving(b, ms, keep, Local(b, k)), head, Applied) {
      ResolvingLast(b, ms, head, keep, Local(b, k));
      KeepsTree(b, ms, keep, Local(b, k));
    }
  }

  // ---------------------------------------------------------------- a choice that is refused half way

  /** Every reception of a choice goes through. */
  ghost predicate ChoiceSucceeds(c: Client, q: Queue, ms: seq<Manifest>, keep: bool, accepted: Option<Hash>, policy: Policy)
    decreases |ms|
  {
    ms == []
    || (var choice := ChoiceOf(keep, accepted);
        && Succeeds(c, q, ms[0], choice, policy)
        && ChoiceSucceeds(Received(c, ms[0], choice), ReceivedBy(c, q, ms[0]), ms[1..], keep, NextAccepted(c, ms[0], keep, accepted), policy))
  }

  /** The broker once they have. */
  ghost function ResolvingBy(c: Client, q: Queue, ms: seq<Manifest>, keep: bool, accepted: Option<Hash>): Queue
    decreases |ms|
  {
    if ms == [] then q
    else
      ResolvingBy(Received(c, ms[0], ChoiceOf(keep, accepted)), ReceivedBy(c, q, ms[0]), ms[1..], keep, NextAccepted(c, ms[0], keep, accepted))
  }

  /** More blocks are cached. */
  predicate OnlyCaches(c: Client, c': Client) {
    c' == c.(cache := c'.cache) && c.cache <= c'.cache
  }

  lemma CachesGather(a: Client, b: Client, c: Client, m: Manifest)
    ensures OnlyCaches(a, a)
    ensures OnlyCaches(a, b) && OnlyCaches(b, c) ==> OnlyCaches(a, c)
    ensures OnlyCaches(a, b) ==> OnlyGathers(a, b, m)
  {
  }

  /** More blocks are cached, partial files differ, and the version's row may. */
  predicate OnlyGathers(c: Client, c': Client, m: Manifest) {
    && c' == c.(cache := c'.cache, partial := c'.partial, inbox := c'.inbox) && c.cache <= c'.cache
    && c'.inbox - {m.id} == c.inbox - {m.id}
  }

  lemma GathersTwice(a: Client, b: Client, c: Client, m: Manifest)
    requires OnlyGathers(a, b, m) && OnlyGathers(b, c, m)
    ensures OnlyGathers(a, c, m)
  {
  }

  /** A refused reception has only gathered blocks and a row, or has done everything but have the receipt accepted. */
  predicate LeftOff(c: Client, c': Client, m: Manifest, choice: Choice) {
    || OnlyGathers(c, c', m)
    || (!Journal(c, m, Applied) && Acceptable(c, m, choice) && c' == Applying(c, m, choice))
  }

  lemma LeftOffCases(c: Client, m: Manifest, choice: Choice)
    ensures LeftOff(c, c, m, choice)
    ensures forall c' | OnlyGathers(c, c', m) :: LeftOff(c, c', m, choice)
    ensures OnlyGathers(c, Readied(c, m), m)
    ensures !Journal(c, m, Applied) && Acceptable(c, m, choice) ==> LeftOff(c, Applying(c, m, choice), m, choice)
  {
    ReadiedForm(c, m);
    hide Readied, Applying, Acceptable, Seeds, SeedHashes, Hashes;
  }

  /** The receptions before it went through, and one was refused. */
  ghost predicate StopsShort(c: Client, q: Queue, ms: seq<Manifest>, keep: bool, accepted: Option<Hash>, policy: Policy, c': Client, q': Queue)
    decreases |ms|
  {
    && ms != []
    && var choice := ChoiceOf(keep, accepted);
       if Succeeds(c, q, ms[0], choice, policy) then
         StopsShort(Received(c, ms[0], choice), ReceivedBy(c, q, ms[0]), ms[1..], keep, NextAccepted(c, ms[0], keep, accepted), policy, c', q')
       else q' == q && LeftOff(c, c', ms[0], choice)
  }

  /** Every content the file had before or after one of the receptions. */
  ghost function Contents(c: Client, q: Queue, k: Key, ms: seq<Manifest>, keep: bool, accepted: Option<Hash>, policy: Policy): set<Hash>
    decreases |ms|
  {
    (if k in c.tree then {Sha256(c.tree[k])} else {})
    + if ms == [] || !Succeeds(c, q, ms[0], ChoiceOf(keep, accepted), policy) then {}
      else Contents(Received(c, ms[0], ChoiceOf(keep, accepted)), ReceivedBy(c, q, ms[0]), k, ms[1..], keep, NextAccepted(c, ms[0], keep, accepted), policy)
  }

  /** A content is in place, or there is a recovery copy of it, or it can be rebuilt from the cache. */
  ghost predicate StillThere(c: Client, k: Key, h: Hash) {
    Local(c, k) == Some(h) || Survives(c, k, h)
  }

  /** Nothing that was in place on the way is lost. */
  ghost predicate LosesNothing(c: Client, q: Queue, k: Key, ms: seq<Manifest>, keep: bool, accepted: Option<Hash>, policy: Policy, c': Client) {
    KeepsMore(c, c') && forall h | h in Contents(c, q, k, ms, keep, accepted, policy) :: StillThere(c', k, h)
  }

  lemma AppliedSame(c: Client, m: Manifest, choice: Choice)
    requires Journal(c, m, Applied)
    ensures Received(c, m, choice).tree == c.tree && KeepsMore(c, Received(c, m, choice))
  {
  }

  lemma ApplyingSafe(c: Client, m: Manifest, choice: Choice, h: Hash)
    requires DisplacesSafely(c, m, choice) && !Journal(c, m, Applied) && Local(c, m.key) == Some(h)
    ensures StillThere(Applying(c, m, choice), m.key, h) && KeepsMore(c, Applying(c, m, choice))
  {
    InterruptedKeeps(c, m, choice, Recording);
    assert Possible(c, m, Recording) && Interrupted(c, m, choice, Recording) == Applying(c, m, choice);
    hide Survives, Applying, KeepsMore;
  }

  /** A reception that goes through loses nothing. */
  lemma ReceivedThere(c: Client, m: Manifest, keep: bool, accepted: Option<Hash>, h: Hash)
    requires Journal(c, m, Applied) || Acceptable(c, m, ChoiceOf(keep, accepted))
    requires accepted.Some? ==> Survives(c, m.key, accepted.value)
    requires Local(c, m.key) == Some(h)
    ensures StillThere(Received(c, m, ChoiceOf(keep, accepted)), m.key, h)
  {
    var choice := ChoiceOf(keep, accepted);
    var f := Received(c, m, choice);
    if Journal(c, m, Applied) {
      AppliedSame(c, m, choice);
    } else {
      StepSafe(c, m, keep, accepted);
      hide DisplacesSafely, Survives, Acceptable, Applying;
      ApplyingSafe(c, m, choice, h);
      var a := Applying(c, m, choice);
      assert f == Dropped(a, m.id);
      if Survives(a, m.key, h) { SurvivesMore(a, f, m.key, h); }
    }
  }

  lemma MoreTwice(a: Client, b: Client, c: Client)
    requires KeepsMore(a, b) && KeepsMore(b, c)
    ensures KeepsMore(a, c)
  {
  }

  /** A reception that is refused loses nothing. */
  lemma LeftOffThere(c: Client, c': Client, m: Manifest, keep: bool, accepted: Option<Hash>)
    requires LeftOff(c, c', m, ChoiceOf(keep, accepted)) && (accepted.Some? ==> Survives(c, m.key, accepted.value))
    ensures KeepsMore(c, c') && forall h | Local(c, m.key) == Some(h) :: StillThere(c', m.key, h)
  {
    var choice := ChoiceOf(keep, accepted);
    if !Journal(c, m, Applied) && Acceptable(c, m, choice) && c' == Applying(c, m, choice) {
      StepSafe(c, m, keep, accepted);
      hide DisplacesSafely, Survives, Acceptable, Applying;
      forall h | Local(c, m.key) == Some(h)
        ensures StillThere(c', m.key, h)
      {
        ApplyingSafe(c, m, choice, h);
      }
      ApplyingMore(c, m, choice);
    }
  }

  lemma ApplyingMore(c: Client, m: Manifest, choice: Choice)
    requires !Journal(c, m, Applied)
    ensures KeepsMore(c, Applying(c, m, choice))
  {
    InterruptedKeeps(c, m, choice, Recording);
    hide KeepsMore, Applying;
  }

  /** Wherever a choice stops, refused half way or carried through, every content the file had on the way survives. */
  lemma {:induction false} ChoiceLosesNothing(c: Client, q: Queue, k: Key, ms: seq<Manifest>, keep: bool, accepted: Option<Hash>, policy: Policy,
                                              c': Client, q': Queue)
    requires forall i | 0 <= i < |ms| :: Truthful(ms[i]) && ms[i].key == k
    requires accepted.Some? ==> Survives(c, k, accepted.value)
    requires StopsShort(c, q, ms, keep, accepted, policy, c', q')
             || (ChoiceSucceeds(c, q, ms, keep, accepted, policy) && c' == Resolving(c, ms, keep, accepted))
    ensures LosesNothing(c, q, k, ms, keep, accepted, policy, c')
    decreases |ms|
  {
    hide Truthful, Received, ReceivedBy, Survives, Succeeds, LeftOff, StillThere, KeepsMore;
    if ms == [] {
      StaysThere(c, k);
    } else {
      var choice := ChoiceOf(keep, accepted);
      if Succeeds(c, q, ms[0], choice, policy) {
        var f, next := Received(c, ms[0], choice), NextAccepted(c, ms[0], keep, accepted);
        SucceedsChosen(c, q, ms[0], choice, policy);
        NextSurvives(c, ms[0], keep, accepted);
        ReceivedKeeps(c, ms[0], choice);
        ChoiceLosesNothing(f, ReceivedBy(c, q, ms[0]), k, ms[1..], keep, next, policy, c', q');
        MoreTwice(c, f, c');
        if k in c.tree {
          var h := Sha256(c.tree[k]);
          ReceivedThere(c, ms[0], keep, accepted, h);
          ThereLater(f, ReceivedBy(c, q, ms[0]), k, ms[1..], keep, next, policy, c', h);
        }
      } else {
        LeftOffThere(c, c', ms[0], keep, accepted);
      }
    }
  }

  lemma StaysThere(c: Client, k: Key)
    ensures KeepsMore(c, c) && forall h | Local(c, k) == Some(h) :: StillThere(c, k, h)
  {
  }

  lemma ThereLater(f: Client, q: Queue, k: Key, ms: seq<Manifest>, keep: bool, accepted: Option<Hash>, policy: Policy, c': Client, h: Hash)
    requires LosesNothing(f, q, k, ms, keep, accepted, policy, c') && StillThere(f, k, h)
    ensures StillThere(c', k, h)
  {
    hide Succeeds, Survives;
    if Local(f, k) == Some(h) {
      assert h in Contents(f, q, k, ms, keep, accepted, policy);
    } else {
      SurvivesMore(f, c', k, h);
    }
  }

  lemma SucceedsNext(c: Client, q: Queue, ms: seq<Manifest>, i: nat, keep: bool, accepted: Option<Hash>, policy: Policy)
    requires i < |ms|
    ensures var choice := ChoiceOf(keep, accepted); var f := Received(c, ms[i], choice); var q1 := ReceivedBy(c, q, ms[i]);
      var next := NextAccepted(c, ms[i], keep, accepted);
      && (ChoiceSucceeds(c, q, ms[i..], keep, accepted, policy)
          <==> Succeeds(c, q, ms[i], choice, policy) && ChoiceSucceeds(f, q1, ms[i + 1..], keep, next, policy))
      && ResolvingBy(c, q, ms[i..], keep, accepted) == ResolvingBy(f, q1, ms[i + 1..], keep, next)
  {
    hide Received, ReceivedBy, NextAccepted, Succeeds;
    assert ms[i..][0] == ms[i] && ms[i..][1..] == ms[i + 1..];
  }

  lemma StopsNext(c: Client, q: Queue, ms: seq<Manifest>, i: nat, keep: bool, accepted: Option<Hash>, policy: Policy, c': Client, q': Queue)
    requires i < |ms|
    ensures var choice := ChoiceOf(keep, accepted); var f := Received(c, ms[i], choice); var q1 := ReceivedBy(c, q, ms[i]);
      StopsShort(c, q, ms[i..], keep, accepted, policy, c', q')
      <==> if Succeeds(c, q, ms[i], choice, policy) then
             StopsShort(f, q1, ms[i + 1..], keep, NextAccepted(c, ms[i], keep, accepted), policy, c', q')
           else q' == q && LeftOff(c, c', ms[i], choice)
  {
    hide Received, ReceivedBy, NextAccepted, Succeeds, LeftOff;
    assert ms[i..][0] == ms[i] && ms[i..][1..] == ms[i + 1..];
  }
}
