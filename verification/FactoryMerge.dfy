/**
 The merge verb: it can be run again after a fault, and once it completes the
 next build pass moves on.
 */
module FactoryMerge {
  import opened Tickets
  import opened Pipelines
  import opened Stages
  import opened Factory

  // The store validates tickets: only executable kinds are ever in review.
  ghost predicate WellKinded(ev: Evidence) {
    forall id :: id in ev.tickets ==> ev.tickets[id].kind.AllowsStatus(ev.tickets[id].status)
  }

  function Merged(t: Ticket, now: int): Ticket {
    if t.status.ReadyForReview? then t.(status := Finished, updatedAt := now) else t
  }

  lemma {:induction false} MergeTickets(ev: Evidence, produced: seq<TicketId>, now: int)
    requires WellKinded(ev)
    ensures
      var (after, error) := MergeTasks(ev, produced, now);
      && error.None?
      && after == ev.(tickets := after.tickets)
      && after.tickets.Keys == ev.tickets.Keys
      && forall id :: id in ev.tickets ==>
                        after.tickets[id] == if id in produced then Merged(ev.tickets[id], now) else ev.tickets[id]
  {
    if produced != [] {
      var n := |produced| - 1;
      MergeTickets(ev, produced[..n], now);
      assert produced == produced[..n] + [produced[n]];
    }
  }

  ghost predicate SameButTimes(a: Evidence, b: Evidence) {
    && a.(tickets := b.tickets) == b
    && a.tickets.Keys == b.tickets.Keys
    && forall id :: id in a.tickets ==> a.tickets[id].(updatedAt := 0) == b.tickets[id].(updatedAt := 0)
  }

  // A merge that faulted part-way leaves the gate closed, and running it again
  // ends where one undisturbed merge would have, but for the update times.
  lemma MergeAgainAfterFault(d: Durable, project: string, id: string, faultAt: nat, now: int, later: int)
    requires Owned(d, project, id).Ok? && d.pipelines[id].Valid() && d.pipelines[id].id == id
    requires !d.pipelines[id].state.Terminal() && d.pipelines[id].gate.MergeApproval?
    requires faultAt < |d.pipelines[id].produced| && WellKinded(d.ev)
    ensures
      var once := Operate(d, project, Merge(|d.pipelines[id].produced|), id, now);
      var (faulted, error) := Operate(d, project, Merge(faultAt), id, now);
      var again := Operate(faulted, project, Merge(|d.pipelines[id].produced|), id, later);
      && error.Err? && faulted.pipelines == d.pipelines
      && once.1.Ok? && again.1 == once.1 && again.0.pipelines == once.0.pipelines
      && SameButTimes(again.0.ev, once.0.ev)
  {
    var p := d.pipelines[id];
    MergeTickets(d.ev, p.produced, now);
    MergeTickets(d.ev, p.produced[..faultAt], now);
    var partly := MergeTasks(d.ev, p.produced[..faultAt], now).0;
    assert WellKinded(partly);
    MergeTickets(partly, p.produced, later);
    var full := MergeTasks(d.ev, p.produced, now).0;
    var redone := MergeTasks(partly, p.produced, later).0;
    forall t | t in full.tickets
      ensures redone.tickets[t].(updatedAt := 0) == full.tickets[t].(updatedAt := 0)
    {
      if t in p.produced[..faultAt] {
        assert t in p.produced;
      }
    }
    assert Operate(d, project, Merge(faultAt), id, now).0 == d.(ev := partly);
  }

  ghost predicate Mergeable(tickets: map<TicketId, Ticket>, id: TicketId) {
    BuildResolved(tickets, id) || AwaitsMerge(tickets, id)
  }

  // A merge that meets no fault resolves what awaits it and clears the gate.
  lemma MergeCompletes(d: Durable, project: string, id: string, now: int)
    requires Owned(d, project, id).Ok? && d.pipelines[id].Valid() && d.pipelines[id].id == id
    requires !d.pipelines[id].state.Terminal() && d.pipelines[id].gate.MergeApproval? && WellKinded(d.ev)
    ensures
      var p := d.pipelines[id];
      Operate(d, project, Merge(|p.produced|), id, now).0
      == Durable(d.pipelines[id := p.(gate := NoGate)], MergeTasks(d.ev, p.produced, now).0)
  {
    hide MergeTasks;
    MergeTickets(d.ev, d.pipelines[id].produced, now);
  }

  // After a completed merge, a build that leaves the tasks alone advances to QA
  // exactly when every produced task existed as done, cancelled or in review.
  lemma MergeThenBuildAdvances(d: Durable, project: string, id: string, now: int, fx: Effect)
    requires Owned(d, project, id).Ok? && d.pipelines[id].Valid() && d.pipelines[id].id == id
    requires d.pipelines[id].state.Building? && d.pipelines[id].gate.MergeApproval? && d.pipelines[id].produced != []
    requires WellKinded(d.ev) && !fx.Faulty()
    requires
      var merged := Operate(d, project, Merge(|d.pipelines[id].produced|), id, now).0;
      forall t :: t in d.pipelines[id].produced ==>
                    (BuildResolved(fx.ev.tickets, t) <==> BuildResolved(merged.ev.tickets, t))
    ensures
      var merged := Operate(d, project, Merge(|d.pipelines[id].produced|), id, now).0;
      var p := merged.pipelines[id];
      var next := StageStep(merged, p, InstalledRun(p, merged.ev, fx));
      && CanRun(IN_FLIGHT, p)
      && (next.d.pipelines[id].state.Qa? <==> forall t :: t in p.produced ==> Mergeable(d.ev.tickets, t))
      && (next.d.pipelines[id].state.Qa? ==> next.worker == Driving(next.d.pipelines[id]))
  {
    hide Operate, MergeTasks, InstalledRun;
    var p := d.pipelines[id];
    MergeTickets(d.ev, p.produced, now);
    MergeCompletes(d, project, id, now);
    var merged := Operate(d, project, Merge(|p.produced|), id, now).0;
    var cleared := p.(gate := NoGate);
    forall t | t in p.produced
      ensures Mergeable(d.ev.tickets, t) <==> BuildResolved(fx.ev.tickets, t)
    {
    }
    BuildAdvancesIff(cleared, merged.ev, fx);
  }
}
