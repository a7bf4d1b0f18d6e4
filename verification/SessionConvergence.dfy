/** The receiving half of a session, undisturbed: the rows found in the inbox first, then what the broker has pending. */
module SessionConvergence {
  import opened Base
  import opened BrokerState
  import opened BrokerInvariants
  import opened BrokerGuarantees
  import opened ClientState
  import opened Receiving
  import opened SyncSystem
  import opened SyncInvariants
  import opened SyncGuarantees
  import opened Interference
  import opened Alignment
  import opened Convergence
  import Recovery

  /** No other device takes a step. */
  function Nobody(n: nat): seq<seq<Event>> {
    seq(n, i => [])
  }

  /** The device is bound, its files are as recorded, deletions are on, and every block of every version it is owed is in
      its cache or on the broker. */
  ghost predicate SessionReady(s: System, d: Device, ds: Dataset, policy: Policy) {
    && SystemOk(s) && d in s.clients && (ds, d) in s.q.bindings
    && Clean(s.clients[d], ds)
    && policy.deletes && policy.recycle
    && forall m | Owed(s.q, d, m) && m.key.dataset == ds :: AtHand(s.q, s.clients[d], m)
  }

  /** The inbox rows of a dataset, each once, in any order. */
  predicate ListsRows(inbox: map<JobId, Row>, ds: Dataset, ids: seq<JobId>) {
    && (forall i | 0 <= i < |ids| :: ids[i] in inbox && inbox[ids[i]].manifest.key.dataset == ds)
    && (forall id | id in inbox && inbox[id].manifest.key.dataset == ds :: id in ids)
    && (forall i, j | 0 <= i < j < |ids| :: ids[i] != ids[j])
  }

  function RowManifests(inbox: map<JobId, Row>, ids: seq<JobId>): seq<Manifest>
    requires forall i | 0 <= i < |ids| :: ids[i] in inbox
  {
    seq(|ids|, i requires 0 <= i < |ids| => inbox[ids[i]].manifest)
  }

  /** The rest of a list, received one version later. */
  lemma ReceiveNext(s: System, d: Device, ms: seq<Manifest>, i: nat, policy: Policy)
    requires d in s.clients && i < |ms|
    ensures var next := ReceiveOne(s, d, ms[i]); var left := |ms| - i;
      && AllSucceed(s, d, ms[i..], Nobody(left), policy)
         == (Succeeds(s.clients[d], s.q, ms[i], NoChoice, policy) && AllSucceed(next, d, ms[i + 1..], Nobody(left - 1), policy))
      && ReceiveAll(s, d, ms[i..], Nobody(left)) == ReceiveAll(next, d, ms[i + 1..], Nobody(left - 1))
  {
    hide Succeeds, ReceiveOne;
    var left := |ms| - i;
    assert Nobody(left)[0] == [] && Nobody(left)[1..] == Nobody(left - 1);
    assert ms[i..][0] == ms[i] && ms[i..][1..] == ms[i + 1..];
    assert Run(s, []) == s;
  }

  lemma NothingLeft(s: System, d: Device, ms: seq<Manifest>, policy: Policy)
    requires ms == []
    ensures AllSucceed(s, d, ms, Nobody(0), policy) && ReceiveAll(s, d, ms, Nobody(0)) == s
  {
  }

  lemma OrderListed(q: Queue)
    requires Inv(q)
    ensures forall i | 0 <= i < |q.order| :: q.order[i] in q.jobs
  {
    assert Numbered(q.jobs, q.order);
    hide Inv;
  }

  lemma {:induction false} SelectedFrom<T>(list: seq<T>, keep: set<T>)
    ensures forall x | x in Select(list, keep) :: x in keep
  {
    if list != [] {
      SelectedFrom(list[..|list| - 1], keep);
    }
  }

  lemma PendingKnown(q: Queue, d: Device, ds: Dataset)
    ensures forall i | 0 <= i < |Pending(q, d, ds)| :: Pending(q, d, ds)[i] in q.jobs
  {
    SelectedFrom(q.order, set id | id in q.jobs && Awaits(q, d, ds, id));
    assert forall i | 0 <= i < |Pending(q, d, ds)| :: Pending(q, d, ds)[i] in Pending(q, d, ds);
  }

  /** What a device is still owed after working off a row, it was owed before, and its blocks are still at hand. */
  lemma OwedAtHand(s: System, d: Device, ds: Dataset, m: Manifest, t: System, done: JobId)
    requires SystemOk(s) && d in s.clients && d in t.clients && s.clients[d].cache <= t.clients[d].cache
    requires AcksOnly(s.q, t.q, d, done) && KeepsOthers(s.q, t.q, d, done)
    requires forall o | Owed(s.q, d, o) && o.key.dataset == ds :: AtHand(s.q, s.clients[d], o)
    requires Owed(t.q, d, m) && m.key.dataset == ds
    ensures AtHand(t.q, t.clients[d], m)
  {
    hide SystemOk, AcksOnly, KeepsOthers, AtHand, Owed, Hashes, Truthful, Holding;
    OwedBefore(s.q, t.q, d, m, done);
    assert OwedHere(s.q, d, s.clients[d], ds, m);
    OwedCommitted(s.q, d, m);
    CommittedFacts(s, d, m);
    OwedStays(s.q, t.q, d, s.clients[d], t.clients[d], ds, m, done);
  }

  lemma OwedBefore(q: Queue, q': Queue, d: Device, m: Manifest, done: JobId)
    requires AcksOnly(q, q', d, done) && Owed(q', d, m)
    ensures Owed(q, d, m) && m.id != done
  {
  }

  lemma OwedCommitted(q: Queue, d: Device, m: Manifest)
    requires Owed(q, d, m)
    ensures IsCommitted(q, m)
  {
  }

  // ---------------------------------------------------------------- rows first

  /** Each row in its turn was applied before, or follows what is recorded by then. */
  predicate InTurn(inbox: map<JobId, Row>, files: map<Key, Manifest>, ms: seq<Manifest>)
    decreases |ms|
  {
    || ms == []
    || (if ms[0].id in inbox && inbox[ms[0].id].phase.Applied? then InTurn(inbox, files, ms[1..])
        else && ms[0].parent == (if ms[0].key in files then Some(files[ms[0].key].id) else None)
             && InTurn(inbox, files[ms[0].key := ms[0]], ms[1..]))
  }

  lemma {:induction false} InTurnFewer(inbox: map<JobId, Row>, files: map<Key, Manifest>, ms: seq<Manifest>, id: JobId)
    requires forall i | 0 <= i < |ms| :: ms[i].id != id
    ensures InTurn(inbox - {id}, files, ms) <==> InTurn(inbox, files, ms)
    decreases |ms|
  {
    if ms != [] {
      assert ms[0].id != id && forall i | 0 <= i < |ms[1..]| :: ms[1..][i] == ms[i + 1];
      InTurnFewer(inbox, files, ms[1..], id);
      InTurnFewer(inbox, files[ms[0].key := ms[0]], ms[1..], id);
    }
  }

  /** The rows of the dataset that are left, each once. */
  ghost predicate RowsLeft(c: Client, ds: Dataset, ms: seq<Manifest>) {
    && (forall i | 0 <= i < |ms| :: ms[i].id in c.inbox && c.inbox[ms[i].id].manifest == ms[i] && ms[i].key.dataset == ds)
    && (forall i, j | 0 <= i < j < |ms| :: ms[i].id != ms[j].id)
    && (forall id | id in c.inbox && c.inbox[id].manifest.key.dataset == ds :: exists i :: 0 <= i < |ms| && ms[i].id == id)
  }

  lemma RowsLeftNext(c: Client, c': Client, ds: Dataset, ms: seq<Manifest>)
    requires RowsLeft(c, ds, ms) && ms != [] && c'.inbox == c.inbox - {ms[0].id}
    ensures RowsLeft(c', ds, ms[1..]) && forall i | 0 <= i < |ms[1..]| :: ms[1..][i].id != ms[0].id
  {
    assert forall i | 0 <= i < |ms[1..]| :: ms[1..][i] == ms[i + 1];
    forall id | id in c'.inbox && c'.inbox[id].manifest.key.dataset == ds
      ensures exists i :: 0 <= i < |ms[1..]| && ms[1..][i].id == id
    {
      var i :| 0 <= i < |ms| && ms[i].id == id;
      assert ms[1..][i - 1] == ms[i];
    }
  }

  /** Whether a row is received, and what that leaves. */
  lemma RowStep(s: System, d: Device, ds: Dataset, ms: seq<Manifest>, policy: Policy)
    requires SessionReady(s, d, ds, policy) && RowsLeft(s.clients[d], ds, ms) && ms != []
    ensures var c := s.clients[d]; var t := ReceiveOne(s, d, ms[0]); var f := t.clients[d];
      && (Succeeds(c, s.q, ms[0], NoChoice, policy) <==> c.inbox[ms[0].id].phase.Applied? || ms[0].parent == Recorded(c, ms[0].key))
      && (Succeeds(c, s.q, ms[0], NoChoice, policy) ==>
            && SessionReady(t, d, ds, policy) && RowsLeft(f, ds, ms[1..]) && t.q.heads == s.q.heads
            && (Aligned(t.q, d, f, ds) <==> Aligned(s.q, d, c, ds))
            && (InTurn(f.inbox, f.files, ms[1..]) <==> InTurn(c.inbox, c.files, ms)))
  {
    hide SessionReady, Succeeds, ReceiveOne, Aligned, InTurn, RowsLeft;
    SessionDevice(s, d, ds, policy);
    var c, m, t := s.clients[d], ms[0], ReceiveOne(s, d, ms[0]);
    RowsLeftFirst(c, ds, ms);
    RowTaken(s, d, ds, m, policy);
    if Succeeds(c, s.q, m, NoChoice, policy) {
      SessionDevice(t, d, ds, policy);
      RowsLeftNext(c, t.clients[d], ds, ms);
      InTurnNext(c, t.clients[d], ms);
    }
  }

  lemma RowTaken(s: System, d: Device, ds: Dataset, m: Manifest, policy: Policy)
    requires SessionReady(s, d, ds, policy) && m.id in s.clients[d].inbox && s.clients[d].inbox[m.id].manifest == m && m.key.dataset == ds
    ensures var c := s.clients[d]; var t := ReceiveOne(s, d, m); var f := t.clients[d];
      && (Succeeds(c, s.q, m, NoChoice, policy) <==> c.inbox[m.id].phase.Applied? || m.parent == Recorded(c, m.key))
      && (Succeeds(c, s.q, m, NoChoice, policy) ==>
            && SessionReady(t, d, ds, policy) && t.q.heads == s.q.heads && (Aligned(t.q, d, f, ds) <==> Aligned(s.q, d, c, ds))
            && f.inbox == c.inbox - {m.id}
            && if AppliedRow(c, m.id) then f.files == c.files else f.files == c.files[m.key := m] && m.parent == Recorded(c, m.key))
  {
    hide SystemOk, Clean, AtHand, Succeeds, Received, ReceivedBy, Aligned, Receives, KeepsOthers, Owed;
    var c, t := s.clients[d], ReceiveOne(s, d, m);
    RowSucceeds(s, d, ds, m.id, policy);
    if Succeeds(c, s.q, m, NoChoice, policy) {
      RowLeaves(s, d, ds, m.id);
      ReceivesFiles(s.q, t.q, d, c, t.clients[d], m);
      RowKeepsHand(s, d, ds, m, t);
    }
  }

  lemma ReceivesFiles(q: Queue, q': Queue, d: Device, c: Client, f: Client, m: Manifest)
    requires Receives(q, q', d, c, f, m)
    ensures if AppliedRow(c, m.id) then f.files == c.files else f.files == c.files[m.key := m] && m.parent == Recorded(c, m.key)
  {
  }

  lemma RowsLeftFirst(c: Client, ds: Dataset, ms: seq<Manifest>)
    requires RowsLeft(c, ds, ms) && ms != []
    ensures ms[0].id in c.inbox && c.inbox[ms[0].id].manifest == ms[0] && ms[0].key.dataset == ds
  {
  }

  lemma RowKeepsHand(s: System, d: Device, ds: Dataset, done: Manifest, t: System)
    requires SystemOk(s) && d in s.clients && d in t.clients && s.clients[d].cache <= t.clients[d].cache
    requires Receives(s.q, t.q, d, s.clients[d], t.clients[d], done) && KeepsOthers(s.q, t.q, d, done.id)
    requires forall o | Owed(s.q, d, o) && o.key.dataset == ds :: AtHand(s.q, s.clients[d], o)
    ensures forall o | Owed(t.q, d, o) && o.key.dataset == ds :: AtHand(t.q, t.clients[d], o)
  {
    hide SystemOk, AtHand, Owed, AcksOnly, KeepsOthers;
    forall o | Owed(t.q, d, o) && o.key.dataset == ds
      ensures AtHand(t.q, t.clients[d], o)
    {
      OwedAtHand(s, d, ds, o, t, done.id);
    }
  }

  lemma InTurnNext(c: Client, f: Client, ms: seq<Manifest>)
    requires ms != [] && f.inbox == c.inbox - {ms[0].id} && forall i | 0 <= i < |ms[1..]| :: ms[1..][i].id != ms[0].id
    requires if AppliedRow(c, ms[0].id) then f.files == c.files else f.files == c.files[ms[0].key := ms[0]] && ms[0].parent == Recorded(c, ms[0].key)
    ensures InTurn(f.inbox, f.files, ms[1..]) <==> InTurn(c.inbox, c.files, ms)
  {
    InTurnFewer(c.inbox, f.files, ms[1..], ms[0].id);
  }

  /** Working off the rows succeeds exactly when each is in its turn, and leaves the device as much aligned as it was. */
  lemma {:induction false} RowsWorkOff(s: System, d: Device, ds: Dataset, ms: seq<Manifest>, policy: Policy)
    requires SessionReady(s, d, ds, policy) && RowsLeft(s.clients[d], ds, ms)
    ensures WorkedOff(s, d, ds, ms, policy)
    decreases |ms|
  {
    hide SessionReady, RowsLeft, Succeeds, ReceiveOne, Aligned;
    if ms == [] {
      NothingLeft(s, d, ms, policy);
      NoRowLeft(s, d, ds, policy);
    } else {
      SessionDevice(s, d, ds, policy);
      RowStep(s, d, ds, ms, policy);
      assert ms[0..] == ms;
      ReceiveNext(s, d, ms, 0, policy);
      hide InTurn;
      if Succeeds(s.clients[d], s.q, ms[0], NoChoice, policy) {
        RowsWorkOff(ReceiveOne(s, d, ms[0]), d, ds, ms[1..], policy);
      } else {
        RowsLeftFirst(s.clients[d], ds, ms);
        OutOfTurn(s.clients[d], ms);
      }
    }
  }

  ghost predicate WorkedOff(s: System, d: Device, ds: Dataset, ms: seq<Manifest>, policy: Policy) {
    && d in s.clients
    && var t := ReceiveAll(s, d, ms, Nobody(|ms|));
    && (AllSucceed(s, d, ms, Nobody(|ms|), policy) <==> InTurn(s.clients[d].inbox, s.clients[d].files, ms))
    && (AllSucceed(s, d, ms, Nobody(|ms|), policy) ==>
          && SessionReady(t, d, ds, policy) && d in t.clients && NoRowOf(t.clients[d], ds) && t.q.heads == s.q.heads
          && (Aligned(t.q, d, t.clients[d], ds) <==> Aligned(s.q, d, s.clients[d], ds)))
  }

  lemma SessionDevice(s: System, d: Device, ds: Dataset, policy: Policy)
    requires SessionReady(s, d, ds, policy)
    ensures d in s.clients
  {
  }

  lemma NoRowLeft(s: System, d: Device, ds: Dataset, policy: Policy)
    requires SessionReady(s, d, ds, policy) && RowsLeft(s.clients[d], ds, [])
    ensures d in s.clients && NoRowOf(s.clients[d], ds)
  {
    hide SystemOk, Clean, Owed, AtHand;
  }

  lemma OutOfTurn(c: Client, ms: seq<Manifest>)
    requires ms != [] && ms[0].id in c.inbox && !c.inbox[ms[0].id].phase.Applied? && ms[0].parent != Recorded(c, ms[0].key)
    ensures !InTurn(c.inbox, c.files, ms)
  {
  }

  // ---------------------------------------------------------------- a whole session

  /** Everything the broker has pending is received. */
  ghost predicate PullSucceeds(t: System, d: Device, ds: Dataset, policy: Policy) {
    && (forall i | 0 <= i < |Pending(t.q, d, ds)| :: Pending(t.q, d, ds)[i] in t.q.jobs)
    && var ms := Answered(t.q, Pending(t.q, d, ds));
       AllSucceed(t, d, ms, Nobody(|ms|), policy)
  }

  ghost function PullEnd(t: System, d: Device, ds: Dataset): System {
    PendingKnown(t.q, d, ds);
    var ms := Answered(t.q, Pending(t.q, d, ds));
    ReceiveAll(t, d, ms, Nobody(|ms|))
  }

  /** The rows of the inbox are received, and then everything pending. */
  ghost predicate SessionSucceeds(s: System, d: Device, ds: Dataset, ids: seq<JobId>, policy: Policy)
    requires d in s.clients && ListsRows(s.clients[d].inbox, ds, ids)
  {
    var rows := RowManifests(s.clients[d].inbox, ids);
    && AllSucceed(s, d, rows, Nobody(|rows|), policy)
    && PullSucceeds(ReceiveAll(s, d, rows, Nobody(|rows|)), d, ds, policy)
  }

  ghost function SessionEnd(s: System, d: Device, ds: Dataset, ids: seq<JobId>): System
    requires d in s.clients && ListsRows(s.clients[d].inbox, ds, ids)
  {
    var rows := RowManifests(s.clients[d].inbox, ids);
    PullEnd(ReceiveAll(s, d, rows, Nobody(|rows|)), d, ds)
  }

  /** Every reception of the session goes through, and the device ends at the heads it started from. */
  ghost predicate ArrivesWhole(s: System, d: Device, ds: Dataset, ids: seq<JobId>, policy: Policy)
    requires d in s.clients && ListsRows(s.clients[d].inbox, ds, ids)
  {
    && SessionSucceeds(s, d, ds, ids, policy)
    && var e := SessionEnd(s, d, ds, ids);
       d in e.clients && AtHeads(s.q, e.clients[d], ds)
  }

  ghost predicate PullsWhole(start: Queue, t: System, d: Device, ds: Dataset, policy: Policy) {
    && PullSucceeds(t, d, ds, policy)
    && var e := PullEnd(t, d, ds);
       d in e.clients && AtHeads(start, e.clients[d], ds)
  }

  lemma PullDecides(start: Queue, t: System, d: Device, ds: Dataset, policy: Policy)
    requires SessionReady(t, d, ds, policy) && NoRowOf(t.clients[d], ds) && t.q.heads == start.heads
    ensures d in t.clients && (PullsWhole(start, t, d, ds, policy) <==> Aligned(t.q, d, t.clients[d], ds))
  {
    hide SystemOk, Inv, Honest, FilesTracked, Clean, NoRowOf, Pending, AtHeads, ReceiveAll, AllSucceed, Aligned, AtHand, Owed;
    PartsOf(t);
    PendingListed(t, d, ds);
    var p := Pending(t.q, d, ds);
    var ms := Answered(t.q, p);
    forall m | m in ms
      ensures AtHand(t.q, t.clients[d], m)
    {
      var i :| 0 <= i < |p| && m == t.q.jobs[p[i]].manifest;
      PendingOwed(t, d, ds, i);
    }
    PullConvergesExactly(t, d, ds, Nobody(|ms|), policy);
    var e := ReceiveAll(t, d, ms, Nobody(|ms|));
    if d in e.clients { SameHeads(start, t.q, e.clients[d], ds); }
  }

  lemma SameHeads(start: Queue, q: Queue, c: Client, ds: Dataset)
    requires start.heads == q.heads
    ensures AtHeads(start, c, ds) <==> AtHeads(q, c, ds)
  {
    assert forall k :: HeadOf(start, k) == HeadOf(q, k);
  }

  lemma RowsListed(c: Client, ds: Dataset, ids: seq<JobId>)
    requires ListsRows(c.inbox, ds, ids) && forall id | id in c.inbox :: c.inbox[id].manifest.id == id
    ensures RowsLeft(c, ds, RowManifests(c.inbox, ids))
  {
    var ms := RowManifests(c.inbox, ids);
    assert forall i | 0 <= i < |ids| :: ms[i] == c.inbox[ids[i]].manifest && ms[i].id == ids[i];
    forall id | id in c.inbox && c.inbox[id].manifest.key.dataset == ds
      ensures exists i :: 0 <= i < |ms| && ms[i].id == id
    {
      var i :| 0 <= i < |ids| && ids[i] == id;
      assert ms[i].id == id;
    }
  }

  lemma ListedRows(inbox: map<JobId, Row>, ds: Dataset, ids: seq<JobId>)
    requires ListsRows(inbox, ds, ids)
    ensures forall i | 0 <= i < |ids| :: ids[i] in inbox
  {
  }

  lemma RowIds(s: System, d: Device, ds: Dataset, policy: Policy)
    requires SessionReady(s, d, ds, policy)
    ensures forall id | id in s.clients[d].inbox :: s.clients[d].inbox[id].manifest.id == id
  {
    DeviceOf(s, d);
    hide SystemOk, DeviceInv, HeadsCommitted, OutboxOwn, BlocksKept, Clean, Owed, AtHand;
  }

  /** The receiving half of a session, rows first and then everything pending, goes through and ends at the heads if and
      only if each row is in its turn and the device is aligned. */
  lemma SessionConvergesExactly(s: System, d: Device, ds: Dataset, ids: seq<JobId>, policy: Policy)
    requires SessionReady(s, d, ds, policy) && ListsRows(s.clients[d].inbox, ds, ids)
    ensures var c := s.clients[d];
      ArrivesWhole(s, d, ds, ids, policy) <==> InTurn(c.inbox, c.files, RowManifests(c.inbox, ids)) && Aligned(s.q, d, c, ds)
  {
    hide SessionReady, RowManifests, InTurn, Aligned, AllSucceed, ReceiveAll, PullSucceeds, PullEnd, AtHeads, RowsLeft, ListsRows, NoRowOf;
    SessionDevice(s, d, ds, policy);
    var c := s.clients[d];
    ListedRows(c.inbox, ds, ids);
    var rows := RowManifests(c.inbox, ids);
    RowIds(s, d, ds, policy);
    RowsListed(c, ds, ids);
    RowsWorkOff(s, d, ds, rows, policy);
    if AllSucceed(s, d, rows, Nobody(|rows|), policy) {
      PullDecides(s.q, ReceiveAll(s, d, rows, Nobody(|rows|)), d, ds, policy);
    }
  }

  /** The rows of the inbox in their turn and then everything pending are received without fail by an aligned device, and
      end with it at the heads. */
  lemma SessionConverges(s: System, d: Device, ds: Dataset, ids: seq<JobId>, policy: Policy)
    requires SessionReady(s, d, ds, policy) && ListsRows(s.clients[d].inbox, ds, ids) && Aligned(s.q, d, s.clients[d], ds)
    requires var c := s.clients[d]; InTurn(c.inbox, c.files, RowManifests(c.inbox, ids))
    ensures ArrivesWhole(s, d, ds, ids, policy)
  {
    SessionConvergesExactly(s, d, ds, ids, policy);
  }
}
