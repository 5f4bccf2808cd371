/**
 Safety over whole runs of the factory with its installed stages: gates pin their phase, clearing one
 does not skip the evidence behind it, and done is earned phase by phase.
 */
module FactorySafety {
  import opened Tickets
  import opened Pipelines
  import opened Stages
  import opened Factory
  import opened FactoryRuns

  /* Gates pin the phase. */

  ghost predicate Pinned(p: Pipeline) {
    && (p.gate.DesignRework? ==> Held(p).Review? && p.session != "")
    && (p.gate.MergeApproval? ==> Held(p).Building? && p.produced != [])
    && !p.gate.ReleaseGate? && !p.gate.RolloutGate?
    && (p.state.Failed? ==> !p.gate.Blocking())
  }

  ghost predicate AllPinned(w: World) {
    && (forall id :: id in w.d.pipelines ==> Pinned(w.d.pipelines[id]))
    && (w.worker.Driving? ==> Pinned(w.worker.local))
  }

  // The gates a stage of this phase can open.
  lemma GroomGates(p: Pipeline, before: Evidence, fx: Effect)
    ensures GroomRun(p, before, fx).ret.Returned? ==> !GroomRun(p, before, fx).ret.result.gate.Blocking()
  {
  }

  lemma ReviewGates(p: Pipeline, before: Evidence, fx: Effect)
    ensures
      var ret := ReviewRun(p, before, fx).ret;
      ret.Returned? ==>
        && (ret.result.gate.Blocking() ==> ret.result.gate.DesignRework? && p.session != "")
        && ret.result.session == "" && ret.result.produced == []
  {
  }

  lemma BuildGates(p: Pipeline, before: Evidence, fx: Effect)
    ensures
      var ret := BuildRun(p, before, fx).ret;
      ret.Returned? ==>
        && (ret.result.gate.Blocking() ==> ret.result.gate.MergeApproval? && p.produced != [])
        && ret.result.session == "" && ret.result.produced == []
  {
  }

  lemma InstalledSettlePinned(p: Pipeline, before: Evidence, fx: Effect)
    requires Pinned(p) && CanRun(IN_FLIGHT, p)
    ensures var ret := InstalledRun(p, before, fx).ret; !ret.Stopped? ==> Pinned(Settle(p, ret))
  {
    hide GroomRun, ReviewRun, BuildRun;
    GroomGates(p, before, fx);
    ReviewGates(p, before, fx);
    BuildGates(p, before, fx);
  }

  lemma PinnedStep(sys: System, w: World, a: Action)
    requires Keyed(sys, w) && Parked(w) && AllPinned(w) && sys.stages == IN_FLIGHT
    requires a.RunStage? && Enabled(sys, w, a) ==> InstalledStage(w, a.outcome)
    ensures AllPinned(Do(sys, w, a))
  {
    hide InstalledRun, Faithful, Settle, Operate;
    var next := Do(sys, w, a);
    StepShape(sys, w, a);
    if a.RunStage? && Enabled(sys, w, a) {
      var fx :| Faithful(w.worker.local, fx) && a.outcome == InstalledRun(w.worker.local, w.d.ev, fx);
      InstalledSettlePinned(w.worker.local, w.d.ev, fx);
    }
    forall id | id in next.d.pipelines
      ensures Pinned(next.d.pipelines[id])
    {
      assert RecordStep(sys, w, a, id, next.d.pipelines[id]);
    }
    if next.worker.Driving? {
      WorkerShape(sys, w, a);
    }
  }

  // In every reachable state a design_rework gate means the review phase and a
  // session, and a merge_approval gate the building phase and produced tasks.
  lemma {:induction false} GatesPinThePhase(sys: System, start: World, run: seq<Action>, n: nat)
    requires Initial(start) && Installed(sys, start, run) && n <= |run|
    ensures Keyed(sys, At(sys, start, run, n)) && Parked(At(sys, start, run, n)) && AllPinned(At(sys, start, run, n))
  {
    if n > 0 {
      GatesPinThePhase(sys, start, run, n - 1);
      var w, a := At(sys, start, run, n - 1), run[n - 1];
      StepShape(sys, w, a);
      ParkedStep(sys, w, a);
      PinnedStep(sys, w, a);
    }
  }

  /* Clearing a gate. */

  // The operator's approve, alone, changes no evidence: while the session says
  // needs-rework the next drive opens the same gate again, in the same phase.
  lemma ClearingDesignReworkReopens(d: Durable, project: string, id: string, now: int, crew: Crew, n: nat)
    requires crew.IsInstalled()
    requires Owned(d, project, id).Ok? && Pinned(d.pipelines[id]) && d.pipelines[id].Valid() && d.pipelines[id].id == id
    requires d.pipelines[id].state.Review? && d.pipelines[id].gate.DesignRework?
    requires RecordedVerdict(d.ev, d.pipelines[id].session) == NEEDS_REWORK
    ensures Operate(d, project, Approve, id, now).1.Ok?
    ensures
      var cleared := Operate(d, project, Approve, id, now).0;
      var p := cleared.pipelines[id];
      var after := DriveAll(crew, cleared, p, n).d;
      && after.ev == d.ev
      && after.pipelines[id].state.Review? && after.pipelines[id].gate.DesignRework?
  {
  }

  // Clearing merge_approval while a produced task is unresolved, with a build
  // that leaves the tasks alone, re-opens the gate or fails in building.
  lemma ClearingMergeApprovalReopens(d: Durable, p: Pipeline, crew: Crew, n: nat)
    requires crew.IsInstalled()
    requires p.id in d.pipelines && d.pipelines[p.id] == p && p.Valid() && p.state.Building? && p.gate.NoGate?
    requires !crew.agents(n, p, d.ev).Faulty() && crew.agents(n, p, d.ev).ev.tickets == d.ev.tickets
    requires exists t :: t in p.produced && !BuildResolved(d.ev.tickets, t)
    ensures
      var after := DriveAll(crew, d, p, n).d.pipelines[p.id];
      || (after.state.Building? && after.gate.MergeApproval?)
      || (after.state.Failed? && Held(after).Building?)
  {
  }

  // The accepting command re-records the review first, so the next review stage
  // advances to building without dispatching a reviewer.
  lemma AcceptDesignAdvances(d: Durable, project: string, id: string, now: int, fx: Effect)
    requires Owned(d, project, id).Ok? && Pinned(d.pipelines[id]) && d.pipelines[id].Valid() && d.pipelines[id].id == id
    requires d.pipelines[id].state.Review? && d.pipelines[id].gate.DesignRework?
    requires FindSession(d.ev.sessions, d.pipelines[id].session).Some?
    ensures Operate(d, project, AcceptDesign, id, now).1.Ok?
    ensures
      var accepted := Operate(d, project, AcceptDesign, id, now).0;
      var p := accepted.pipelines[id];
      var next := StageStep(accepted, p, InstalledRun(p, accepted.ev, fx));
      && next.d.ev == accepted.ev
      && Evident(Review, p, next.d.ev)
      && next.worker == Driving(next.d.pipelines[id])
      && next.d.pipelines[id].state.Building? && next.d.pipelines[id].gate.NoGate?
  {
  }

  /* Done is earned. */

  // Step i took pipeline id out of this phase, on the evidence of that moment.
  ghost predicate Leaves(sys: System, start: World, run: seq<Action>, i: nat, id: string, phase: State)
    requires i < |run|
  {
    var w := At(sys, start, run, i);
    var next := At(sys, start, run, i + 1);
    && run[i].RunStage? && Enabled(sys, w, run[i])
    && w.worker.local.id == id && w.worker.local.state == phase
    && id in next.d.pipelines && Follows(phase, next.d.pipelines[id].state)
    && Evident(phase, next.d.pipelines[id], next.d.ev)
  }

  ghost predicate Left(sys: System, start: World, run: seq<Action>, n: nat, id: string, phase: State)
    requires n <= |run|
  {
    exists i :: 0 <= i < n && Leaves(sys, start, run, i, id, phase)
  }

  // A record past a phase has left it before.
  ghost predicate Earned(sys: System, start: World, run: seq<Action>, n: nat, p: Pipeline)
    requires n <= |run|
  {
    !p.state.Cancelled? ==>
      && (Rank(p) > PhaseRank(Grooming) ==> Left(sys, start, run, n, p.id, Grooming))
      && (Rank(p) > PhaseRank(Review) ==> Left(sys, start, run, n, p.id, Review))
      && (Rank(p) > PhaseRank(Building) ==> Left(sys, start, run, n, p.id, Building))
      && (Rank(p) > PhaseRank(Qa) ==> Left(sys, start, run, n, p.id, Qa))
      && (Rank(p) > PhaseRank(Rollout) ==> Left(sys, start, run, n, p.id, Rollout))
  }

  ghost predicate AllEarned(sys: System, start: World, run: seq<Action>, n: nat)
    requires n <= |run|
  {
    var w := At(sys, start, run, n);
    && (forall id :: id in w.d.pipelines ==> Earned(sys, start, run, n, w.d.pipelines[id]))
    && (w.worker.Driving? ==> Earned(sys, start, run, n, w.worker.local))
  }

  lemma EarnedLater(sys: System, start: World, run: seq<Action>, n: nat, p: Pipeline)
    requires n < |run| && Earned(sys, start, run, n, p)
    ensures Earned(sys, start, run, n + 1, p)
  {
    forall phase | Left(sys, start, run, n, p.id, phase)
      ensures Left(sys, start, run, n + 1, p.id, phase)
    {
      var i :| 0 <= i < n && Leaves(sys, start, run, i, p.id, phase);
      assert 0 <= i < n + 1 && Leaves(sys, start, run, i, p.id, phase);
    }
  }

  // The same record, finished or in no later phase past grooming than before.
  predicate NoFurther(p: Pipeline, q: Pipeline) {
    q.id == p.id
    && (q.state.Cancelled? || (!p.state.Cancelled? && Rank(q) <= Rank(p)) || Rank(q) <= PhaseRank(Grooming))
  }

  // A verb, a claim or a failed save moves no record past a phase it was in.
  lemma QuietStepRank(sys: System, w: World, a: Action, id: string, q: Pipeline)
    requires RecordStep(sys, w, a, id, q) && Keyed(sys, w) && Parked(w)
    requires !(a.RunStage? && Enabled(sys, w, a))
    ensures id in w.d.pipelines ==> NoFurther(w.d.pipelines[id], q)
    ensures id !in w.d.pipelines ==> Rank(q) == 0
    ensures q.id == id
  {
  }

  lemma QuietStepEarned(sys: System, start: World, run: seq<Action>, n: nat, id: string)
    requires n < |run|
    requires var w := At(sys, start, run, n);
             Keyed(sys, w) && Parked(w) && AllEarned(sys, start, run, n)
             && !(run[n].RunStage? && Enabled(sys, w, run[n]))
    requires id in At(sys, start, run, n + 1).d.pipelines
    ensures Earned(sys, start, run, n + 1, At(sys, start, run, n + 1).d.pipelines[id])
  {
    hide Leaves, Left, Earned, RecordStep, NoFurther, Do, Keyed, Parked;
    var w := At(sys, start, run, n);
    var q := At(sys, start, run, n + 1).d.pipelines[id];
    StepShape(sys, w, run[n]);
    QuietStepRank(sys, w, run[n], id, q);
    if id in w.d.pipelines {
      EarnedLater(sys, start, run, n, w.d.pipelines[id]);
      EarnedLess(sys, start, run, n + 1, w.d.pipelines[id], q);
    } else {
      EarnedEarly(sys, start, run, n + 1, q);
    }
  }

  lemma EarnedLess(sys: System, start: World, run: seq<Action>, n: nat, p: Pipeline, q: Pipeline)
    requires n <= |run| && Earned(sys, start, run, n, p)
    requires NoFurther(p, q)
    ensures Earned(sys, start, run, n, q)
  {
    hide Left;
  }

  lemma EarnedEarly(sys: System, start: World, run: seq<Action>, n: nat, q: Pipeline)
    requires n <= |run| && Rank(q) <= PhaseRank(Grooming)
    ensures Earned(sys, start, run, n, q)
  {
  }

  // An installed stage either stays in its phase or leaves it on evidence.
  lemma InstalledSettleEvident(p: Pipeline, before: Evidence, fx: Effect)
    requires Faithful(p, fx) && p.state.InFlight() && !InstalledRun(p, before, fx).ret.Stopped?
    ensures
      var outcome := InstalledRun(p, before, fx);
      var q := Settle(p, outcome.ret);
      && q.id == p.id
      && (Advances(outcome) ==> Follows(p.state, q.state) && Evident(p.state, q, outcome.ev))
      && (!Advances(outcome) ==> Rank(q) == Rank(p))
  {
    FaithfulReviewIsEvident(p, before, fx);
  }

  // An installed stage that was saved leaves an earned record.
  lemma StageEarned(sys: System, start: World, run: seq<Action>, n: nat, q: Pipeline)
    requires n < |run| && sys.stages == IN_FLIGHT
    requires var w, next := At(sys, start, run, n), At(sys, start, run, n + 1);
             && run[n].RunStage? && Enabled(sys, w, run[n]) && InstalledStage(w, run[n].outcome)
             && !run[n].outcome.ret.Stopped? && q == Settle(w.worker.local, run[n].outcome.ret)
             && Earned(sys, start, run, n, w.worker.local)
             && q.id in next.d.pipelines && next.d.pipelines[q.id] == q && next.d.ev == run[n].outcome.ev
    ensures Earned(sys, start, run, n + 1, q)
  {
    hide InstalledRun, Faithful, Evident, Settle;
    var w := At(sys, start, run, n);
    var local := w.worker.local;
    var outcome := run[n].outcome;
    EarnedLater(sys, start, run, n, local);
    var fx :| Faithful(local, fx) && outcome == InstalledRun(local, w.d.ev, fx);
    InstalledSettleEvident(local, w.d.ev, fx);
    if Advances(outcome) {
      assert Leaves(sys, start, run, n, q.id, local.state);
      EarnedNext(sys, start, run, n, local, q);
    } else {
      hide Leaves;
    }
  }

  lemma EarnedNext(sys: System, start: World, run: seq<Action>, n: nat, p: Pipeline, q: Pipeline)
    requires n < |run| && Earned(sys, start, run, n + 1, p) && q.id == p.id && Follows(p.state, q.state)
    requires Leaves(sys, start, run, n, q.id, p.state)
    ensures Earned(sys, start, run, n + 1, q)
  {
    hide Leaves;
    assert Left(sys, start, run, n + 1, q.id, p.state);
  }

  lemma {:induction false} EarnedAlways(sys: System, start: World, run: seq<Action>, n: nat)
    requires Initial(start) && Installed(sys, start, run) && n <= |run|
    ensures AllEarned(sys, start, run, n)
  {
    if n > 0 {
      EarnedAlways(sys, start, run, n - 1);
      GatesPinThePhase(sys, start, run, n - 1);
      EarnedStep(sys, start, run, n - 1);
    }
  }

  lemma EarnedStep(sys: System, start: World, run: seq<Action>, n: nat)
    requires n < |run| && Installed(sys, start, run)
    requires Keyed(sys, At(sys, start, run, n)) && Parked(At(sys, start, run, n)) && AllEarned(sys, start, run, n)
    ensures AllEarned(sys, start, run, n + 1)
  {
    var w, a := At(sys, start, run, n), run[n];
    var next := At(sys, start, run, n + 1);
    StepShape(sys, w, a);
    var stage := a.RunStage? && Enabled(sys, w, a);
    forall id | id in next.d.pipelines
      ensures Earned(sys, start, run, n + 1, next.d.pipelines[id])
    {
      if !stage {
        QuietStepEarned(sys, start, run, n, id);
      } else if id in w.d.pipelines && next.d.pipelines[id] == w.d.pipelines[id] {
        EarnedLater(sys, start, run, n, w.d.pipelines[id]);
      } else {
        StageEarned(sys, start, run, n, next.d.pipelines[id]);
      }
    }
    if next.worker.Driving? {
      WorkerShape(sys, w, a);
      if w.worker == next.worker {
        EarnedLater(sys, start, run, n, w.worker.local);
      }
    }
  }

  // What leaving a phase presupposes: the driven record had left the phase before it.
  lemma LeftBefore(sys: System, start: World, run: seq<Action>, n: nat, id: string, leaving: State, phase: State)
    returns (i: nat)
    requires Initial(start) && Installed(sys, start, run) && n < |run| && Leaves(sys, start, run, n, id, leaving)
    requires Follows(phase, leaving)
    ensures i < n && Leaves(sys, start, run, i, id, phase)
  {
    EarnedAlways(sys, start, run, n);
    var local := At(sys, start, run, n).worker.local;
    assert Earned(sys, start, run, n, local);
    assert Left(sys, start, run, n, id, phase);
    i :| 0 <= i < n && Leaves(sys, start, run, i, id, phase);
  }

  // Completion is earned: a done pipeline was groomed, then left review on a recorded
  // approval, building with every produced task resolved and QA on a valid pass, and
  // was then rolled out.
  lemma DoneIsEarned(sys: System, start: World, run: seq<Action>, n: nat, id: string)
    returns (groom: nat, review: nat, build: nat, qa: nat, rollout: nat)
    requires Initial(start) && Installed(sys, start, run) && n <= |run|
    requires id in At(sys, start, run, n).d.pipelines && At(sys, start, run, n).d.pipelines[id].state.Done?
    ensures groom < review < build < qa < rollout < n
    ensures Leaves(sys, start, run, groom, id, Grooming)
    ensures Leaves(sys, start, run, review, id, Review)
    ensures Leaves(sys, start, run, build, id, Building)
    ensures Leaves(sys, start, run, qa, id, Qa)
    ensures Leaves(sys, start, run, rollout, id, Rollout)
  {
    EarnedAlways(sys, start, run, n);
    GatesPinThePhase(sys, start, run, n);
    var p := At(sys, start, run, n).d.pipelines[id];
    assert Earned(sys, start, run, n, p);
    assert Left(sys, start, run, n, id, Rollout);
    rollout :| 0 <= rollout < n && Leaves(sys, start, run, rollout, id, Rollout);
    qa := LeftBefore(sys, start, run, rollout, id, Rollout, Qa);
    build := LeftBefore(sys, start, run, qa, id, Qa, Building);
    review := LeftBefore(sys, start, run, build, id, Building, Review);
    groom := LeftBefore(sys, start, run, review, id, Review, Grooming);
  }

  // In every run, whatever moves the phase a pipeline holds past grooming, other
  // than a cancel, is a stage of that pipeline leaving its phase on the evidence.
  lemma LeavingIsEvident(sys: System, start: World, run: seq<Action>, i: nat, id: string)
    requires Initial(start) && Installed(sys, start, run) && i < |run|
    requires id in At(sys, start, run, i).d.pipelines && id in At(sys, start, run, i + 1).d.pipelines
    requires
      var p, q := At(sys, start, run, i).d.pipelines[id], At(sys, start, run, i + 1).d.pipelines[id];
      Rank(q) > Rank(p) && Rank(q) > PhaseRank(Grooming) && !q.state.Cancelled?
    ensures
      var p := At(sys, start, run, i).d.pipelines[id];
      Leaves(sys, start, run, i, id, Held(p))
  {
    hide InstalledRun, Faithful, Evident, Settle;
    var w, a := At(sys, start, run, i), run[i];
    SteadyAlways(sys, start, run, i);
    OrderedStep(sys, w, a, id);
    var q := At(sys, start, run, i + 1).d.pipelines[id];
    assert StageAdvances(sys, w, a, id, q);
    var local := w.worker.local;
    var fx :| Faithful(local, fx) && a.outcome == InstalledRun(local, w.d.ev, fx);
    InstalledSettleEvident(local, w.d.ev, fx);
    SavedEvidence(sys, w, a);
  }

  // The evidence after a stage is what the stage left, whether or not it was saved.
  lemma SavedEvidence(sys: System, w: World, a: Action)
    requires a.RunStage? && Enabled(sys, w, a)
    ensures Do(sys, w, a).d.ev == a.outcome.ev
  {
  }
}
