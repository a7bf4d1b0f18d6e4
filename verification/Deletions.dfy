/** Synchronizing with deletions switched off: what then still comes through, and when that is everything. */
module Deletions {
  import opened Base
  import opened BrokerState
  import opened BrokerInvariants
  import opened BrokerGuarantees
  import opened ClientState
  import opened Receiving
  import opened SyncSystem
  import opened SyncInvariants
  import opened SyncGuarantees
  import opened Interference
  import opened Alignment
  import opened Convergence
  import opened SessionConvergence

  /** No version of the list is a deletion, but for those a row says were applied before. */
  predicate NoDeletions(inbox: map<JobId, Row>, ms: seq<Manifest>) {
    forall i | 0 <= i < |ms| :: ms[i].kind == PUT || (ms[i].id in inbox && inbox[ms[i].id].phase.Applied?)
  }

  /** Among what a device has yet to receive in a dataset, from its rows or from the broker, is no deletion. */
  ghost predicate NoDeletionDue(q: Queue, d: Device, c: Client, ds: Dataset) {
    forall id | id in q.jobs && q.jobs[id].manifest.kind == DELETE && q.jobs[id].manifest.key.dataset == ds ::
      if id in c.inbox then c.inbox[id].phase.Applied? else q.jobs[id].Committed() ==> d in q.jobs[id].receipts
  }

  /** The switch matters for deletions that have not been applied, and for nothing else. */
  lemma SwitchedOff(c: Client, q: Queue, m: Manifest, recycle: bool)
    ensures Succeeds(c, q, m, NoChoice, Policy(false, recycle))
            <==> Succeeds(c, q, m, NoChoice, Policy(true, recycle)) && (m.kind == PUT || Journal(c, m, Applied))
  {
    hide Receipt, Reachable, Rebuilds, SeedsMatch, Acceptable;
  }

  lemma ReceivedInbox(c: Client, m: Manifest)
    ensures Received(c, m, NoChoice).inbox == c.inbox - {m.id}
  {
    hide Hashes, Seeds, Already, Blocks;
    var r := Readied(c, m);
    assert r.inbox - {m.id} == c.inbox - {m.id};
    hide Readied, Edited;
    assert Applying(c, m, NoChoice).inbox == r.inbox[m.id := r.inbox[m.id].(phase := Applied)];
    hide Applying;
  }

  lemma {:induction false} OthersClient(s: System, events: seq<Event>, d: Device)
    requires ByOthers(events, d) && d in s.clients
    ensures var t := Run(s, events); d in t.clients && t.clients[d] == s.clients[d]
    decreases |events|
  {
    hide Step;
    if events != [] {
      OtherClient(s, events[0], d);
      OthersClient(Step(s, events[0]), events[1..], d);
    }
  }

  predicate Distinct(ms: seq<Manifest>) {
    forall i, j | 0 <= i < j < |ms| :: ms[i].id != ms[j].id
  }

  lemma NoDeletionsNext(inbox: map<JobId, Row>, ms: seq<Manifest>)
    requires ms != [] && Distinct(ms)
    ensures NoDeletions(inbox, ms)
            <==> NoDeletions(inbox - {ms[0].id}, ms[1..]) && (ms[0].kind == PUT || (ms[0].id in inbox && inbox[ms[0].id].phase.Applied?))
    ensures Distinct(ms[1..])
  {
    assert forall i | 0 <= i < |ms[1..]| :: ms[1..][i] == ms[i + 1];
    assert forall i | 0 < i < |ms| :: ms[i] == ms[1..][i - 1] && ms[i].id != ms[0].id;
  }

  lemma NoDeletionsEmpty(inbox: map<JobId, Row>)
    ensures NoDeletions(inbox, [])
  {
  }

  /** A list comes through with the switch off exactly when it does with the switch on and holds no deletion to apply. */
  lemma {:induction false} ListOff(s: System, d: Device, ms: seq<Manifest>, others: seq<seq<Event>>, recycle: bool)
    requires |others| == |ms| && (forall i | 0 <= i < |others| :: ByOthers(others[i], d)) && d in s.clients && Distinct(ms)
    ensures AllSucceed(s, d, ms, others, Policy(false, recycle))
            <==> AllSucceed(s, d, ms, others, Policy(true, recycle)) && NoDeletions(s.clients[d].inbox, ms)
    decreases |ms|
  {
    hide Succeeds, Received, ReceivedBy, Run, ByOthers, NoDeletions, Distinct;
    if ms == [] {
      NoDeletionsEmpty(s.clients[d].inbox);
    } else {
      var t := Run(s, others[0]);
      OthersClient(s, others[0], d);
      var c := s.clients[d];
      SwitchedOff(c, t.q, ms[0], recycle);
      NoDeletionsNext(c.inbox, ms);
      ReceivedInbox(c, ms[0]);
      ListOff(ReceiveOne(t, d, ms[0]), d, ms[1..], others[1..], recycle);
    }
  }

  // ---------------------------------------------------------------- pulling

  lemma PendingDeletions(s: System, d: Device, ds: Dataset)
    requires Pullable(s, d, ds) && forall i | 0 <= i < |Pending(s.q, d, ds)| :: Pending(s.q, d, ds)[i] in s.q.jobs
    ensures var ms := Answered(s.q, Pending(s.q, d, ds));
      && Distinct(ms)
      && (NoDeletions(s.clients[d].inbox, ms) <==> NoDeletionDue(s.q, d, s.clients[d], ds))
  {
    var q, c, p := s.q, s.clients[d], Pending(s.q, d, ds);
    assert Inv(q) && WellFormed(q.jobs) by { PartsOf(s); hide SystemOk; }
    DeviceOf(s, d);
    hide SystemOk, Inv, Pending, DeviceInv, HeadsCommitted, OutboxOwn, BlocksKept, Clean, WellFormed, Answered, RowsKnown, NoRowOf;
    PendingExact(q, d, ds);
    PendingOrdered(q, d, ds);
    AnsweredAt(q, p);
    hide Ascending, ParentsFirst;
    forall id | id in q.jobs && q.jobs[id].manifest.key.dataset == ds
      ensures id !in c.inbox
    {
      NoRowAt(q, c, ds, id);
    }
    DeletionsListed(q, d, c, ds, p, Answered(q, p));
  }

  lemma DeletionsListed(q: Queue, d: Device, c: Client, ds: Dataset, p: seq<JobId>, ms: seq<Manifest>)
    requires |ms| == |p| && (forall id :: id in p <==> Lacks(q, d, ds, id))
    requires forall i | 0 <= i < |p| :: p[i] in q.jobs && ms[i] == q.jobs[p[i]].manifest && ms[i].id == p[i]
    requires forall id | id in q.jobs && q.jobs[id].manifest.key.dataset == ds :: id !in c.inbox
    ensures NoDeletions(c.inbox, ms) <==> NoDeletionDue(q, d, c, ds)
  {
    forall i | 0 <= i < |p|
      ensures Lacks(q, d, ds, p[i]) && ms[i] == q.jobs[p[i]].manifest && p[i] !in c.inbox
    {
      assert p[i] in p;
    }
    if NoDeletions(c.inbox, ms) {
      forall id | id in q.jobs && q.jobs[id].manifest.kind == DELETE && q.jobs[id].manifest.key.dataset == ds
        ensures q.jobs[id].Committed() ==> d in q.jobs[id].receipts
      {
        assert id in p <==> Lacks(q, d, ds, id);
      }
    }
  }

  /** With the switch in either position a pull goes through and ends at the heads if and only if the device is aligned and,
      when the switch is off, no deletion is due. */
  lemma PullEitherWay(s: System, d: Device, ds: Dataset, others: seq<seq<Event>>, policy: Policy)
    requires Pullable(s, d, ds) && policy.recycle
    requires forall i | 0 <= i < |Pending(s.q, d, ds)| :: Pending(s.q, d, ds)[i] in s.q.jobs
    requires forall m | m in Answered(s.q, Pending(s.q, d, ds)) :: AtHand(s.q, s.clients[d], m)
    requires |others| == |Pending(s.q, d, ds)| && forall i | 0 <= i < |others| :: ByOthers(others[i], d)
    ensures var ms := Answered(s.q, Pending(s.q, d, ds)); var e := ReceiveAll(s, d, ms, others); var c := s.clients[d];
      (AllSucceed(s, d, ms, others, policy) && d in e.clients && AtHeads(s.q, e.clients[d], ds))
      <==> Aligned(s.q, d, c, ds) && (policy.deletes || NoDeletionDue(s.q, d, c, ds))
  {
    hide SystemOk, Clean, NoRowOf, Aligned, ByOthers, AllSucceed, ReceiveAll, AtHeads, AtHand, Pending, NoDeletions, NoDeletionDue, Distinct;
    PullConvergesExactly(s, d, ds, others, Policy(true, true));
    PendingDeletions(s, d, ds);
    ListOff(s, d, Answered(s.q, Pending(s.q, d, ds)), others, true);
    assert policy == Policy(policy.deletes, true);
  }

  // ---------------------------------------------------------------- a session

  lemma DueNext(q: Queue, q': Queue, d: Device, c: Client, c': Client, m: Manifest, ds: Dataset)
    requires Receives(q, q', d, c, c', m) && m.key.dataset == ds && m.id in c.inbox
    ensures NoDeletionDue(q, d, c, ds) <==> NoDeletionDue(q', d, c', ds) && (m.kind == PUT || c.inbox[m.id].phase.Applied?)
  {
  }

  lemma RowDue(s: System, d: Device, ds: Dataset, m: Manifest, policy: Policy)
    requires SessionReady(s, d, ds, policy) && m.id in s.clients[d].inbox && s.clients[d].inbox[m.id].manifest == m && m.key.dataset == ds
    requires Succeeds(s.clients[d], s.q, m, NoChoice, policy)
    ensures var c := s.clients[d]; var t := ReceiveOne(s, d, m);
      NoDeletionDue(s.q, d, c, ds) <==> NoDeletionDue(t.q, d, t.clients[d], ds) && (m.kind == PUT || c.inbox[m.id].phase.Applied?)
  {
    hide SystemOk, Clean, AtHand, Succeeds, Received, ReceivedBy, Aligned, Receives, KeepsOthers, Owed, NoDeletionDue;
    RowSucceeds(s, d, ds, m.id, policy);
    RowLeaves(s, d, ds, m.id);
    var t := ReceiveOne(s, d, m);
    DueNext(s.q, t.q, d, s.clients[d], t.clients[d], m, ds);
  }

  /** Working off the rows leaves no deletion due exactly when, but for them, none was. */
  lemma {:induction false} DueWorkedOff(s: System, d: Device, ds: Dataset, ms: seq<Manifest>, policy: Policy)
    requires SessionReady(s, d, ds, policy) && RowsLeft(s.clients[d], ds, ms) && AllSucceed(s, d, ms, Nobody(|ms|), policy)
    ensures var c := s.clients[d]; var t := ReceiveAll(s, d, ms, Nobody(|ms|));
      d in t.clients && (NoDeletionDue(s.q, d, c, ds) <==> NoDeletions(c.inbox, ms) && NoDeletionDue(t.q, d, t.clients[d], ds))
    decreases |ms|
  {
    hide SessionReady, RowsLeft, Succeeds, ReceiveOne, Aligned, InTurn, NoDeletions, NoDeletionDue, Distinct;
    SessionDevice(s, d, ds, policy);
    if ms == [] {
      NothingLeft(s, d, ms, policy);
      NoDeletionsEmpty(s.clients[d].inbox);
    } else {
      assert ms[0..] == ms;
      ReceiveNext(s, d, ms, 0, policy);
      RowStep(s, d, ds, ms, policy);
      RowsLeftFirst(s.clients[d], ds, ms);
      RowDue(s, d, ds, ms[0], policy);
      RowsDistinct(s.clients[d], ds, ms);
      NoDeletionsNext(s.clients[d].inbox, ms);
      ReceivedInbox(s.clients[d], ms[0]);
      DueWorkedOff(ReceiveOne(s, d, ms[0]), d, ds, ms[1..], policy);
      ReceiveOneDevice(s, d, ms[0]);
    }
  }

  lemma ReceiveOneDevice(s: System, d: Device, m: Manifest)
    requires d in s.clients
    ensures var t := ReceiveOne(s, d, m); d in t.clients && t.clients[d] == Received(s.clients[d], m, NoChoice)
  {
    hide Received, ReceivedBy;
  }

  lemma RowsDistinct(c: Client, ds: Dataset, ms: seq<Manifest>)
    requires RowsLeft(c, ds, ms)
    ensures Distinct(ms)
  {
  }

  /** Everything the broker has pending after the rows, with the switch off. */
  lemma PullSucceedsOff(t: System, d: Device, ds: Dataset)
    requires Pullable(t, d, ds)
    ensures PullSucceeds(t, d, ds, Policy(false, true))
            <==> PullSucceeds(t, d, ds, Policy(true, true)) && NoDeletionDue(t.q, d, t.clients[d], ds)
  {
    hide SystemOk, Clean, NoRowOf, AllSucceed, Pending, NoDeletions, NoDeletionDue, Distinct, Answered;
    PendingKnown(t.q, d, ds);
    PendingDeletions(t, d, ds);
    var ms := Answered(t.q, Pending(t.q, d, ds));
    ListOff(t, d, ms, Nobody(|ms|), true);
  }

  lemma ReadyRecycles(s: System, d: Device, ds: Dataset, policy: Policy)
    requires SessionReady(s, d, ds, policy)
    ensures policy.recycle
  {
  }

  lemma ReadyPulls(t: System, d: Device, ds: Dataset, policy: Policy)
    requires SessionReady(t, d, ds, policy) && NoRowOf(t.clients[d], ds)
    ensures Pullable(t, d, ds)
  {
    hide SystemOk, Clean, NoRowOf, Owed, AtHand;
  }

  lemma RowsOff(s: System, d: Device, ds: Dataset, rows: seq<Manifest>)
    requires SessionReady(s, d, ds, Policy(true, true)) && RowsLeft(s.clients[d], ds, rows)
    ensures (AllSucceed(s, d, rows, Nobody(|rows|), Policy(false, true))
               && PullSucceeds(ReceiveAll(s, d, rows, Nobody(|rows|)), d, ds, Policy(false, true)))
            <==> AllSucceed(s, d, rows, Nobody(|rows|), Policy(true, true))
                 && PullSucceeds(ReceiveAll(s, d, rows, Nobody(|rows|)), d, ds, Policy(true, true))
                 && NoDeletionDue(s.q, d, s.clients[d], ds)
  {
    hide SessionReady, RowsLeft, InTurn, Aligned, AllSucceed, ReceiveAll, PullSucceeds, NoRowOf, NoDeletions, NoDeletionDue, Distinct;
    SessionDevice(s, d, ds, Policy(true, true));
    RowsDistinct(s.clients[d], ds, rows);
    ListOff(s, d, rows, Nobody(|rows|), true);
    if AllSucceed(s, d, rows, Nobody(|rows|), Policy(true, true)) {
      RowsWorkOff(s, d, ds, rows, Policy(true, true));
      DueWorkedOff(s, d, ds, rows, Policy(true, true));
      var t := ReceiveAll(s, d, rows, Nobody(|rows|));
      ReadyPulls(t, d, ds, Policy(true, true));
      PullSucceedsOff(t, d, ds);
    }
  }

  /** With the switch in either position the receiving half of a session goes through and ends at the heads if and only if
      each row is in its turn, the device is aligned and, when the switch is off, no deletion is due. */
  lemma SessionEitherWay(s: System, d: Device, ds: Dataset, ids: seq<JobId>, policy: Policy)
    requires SessionReady(s, d, ds, Policy(true, policy.recycle)) && ListsRows(s.clients[d].inbox, ds, ids)
    ensures var c := s.clients[d];
      ArrivesWhole(s, d, ds, ids, policy)
      <==> && InTurn(c.inbox, c.files, RowManifests(c.inbox, ids)) && Aligned(s.q, d, c, ds)
           && (policy.deletes || NoDeletionDue(s.q, d, c, ds))
  {
    hide SessionReady, RowManifests, InTurn, Aligned, AllSucceed, ReceiveAll, PullSucceeds, PullEnd, AtHeads, RowsLeft, ListsRows, NoRowOf, NoDeletionDue;
    var on := Policy(true, true);
    ReadyRecycles(s, d, ds, Policy(true, policy.recycle));
    SessionDevice(s, d, ds, on);
    SessionConvergesExactly(s, d, ds, ids, on);
    var c := s.clients[d];
    ListedRows(c.inbox, ds, ids);
    var rows := RowManifests(c.inbox, ids);
    RowIds(s, d, ds, on);
    RowsListed(c, ds, ids);
    RowsOff(s, d, ds, rows);
    assert policy == Policy(policy.deletes, true);
  }
}
