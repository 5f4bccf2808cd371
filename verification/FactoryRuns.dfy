/**
 What every run of the factory keeps in its records: terminal states, properly
 parked phases, and the order of the phases.
 */
module FactoryRuns {
  import opened Tickets
  import opened Pipelines
  import opened Stages
  import opened Factory
  import QaGate
  import ReviewGate

  /* The record invariant. */

  // Every record names itself, and a driven copy belongs to a stored pipeline.
  ghost predicate Keyed(sys: System, w: World) {
    && (forall id :: id in w.d.pipelines ==> w.d.pipelines[id].id == id)
    && (w.worker.Driving? ==>
          && w.worker.local.id in w.d.pipelines
          && w.worker.local.project == sys.project)
  }

  ghost predicate ParkedProperly(p: Pipeline) {
    && (p.state.Failed? && p.resumeState.Some? ==> p.resumeState.value.InFlight())
    && (p.state.Paused? ==> p.resumeState.Some? && !p.resumeState.value.Terminal() && !p.resumeState.value.Paused?)
    && (!p.state.Failed? && !p.state.Paused? ==> p.resumeState.None?)
  }

  ghost predicate Parked(w: World) {
    && (forall id :: id in w.d.pipelines ==> ParkedProperly(w.d.pipelines[id]))
    && (w.worker.Driving? ==> ParkedProperly(w.worker.local))
  }

  // What an operator verb may do to one record.
  ghost predicate VerbChange(verb: Verb, p: Pipeline, q: Pipeline) {
    match verb
    case Answer(_) => p.gate.GroomQuestions? && q == p.(gate := NoGate)
    case Approve => p.gate.DesignRework? && q == p.(gate := NoGate)
    case AcceptDesign => p.gate.DesignRework? && q == p.(gate := NoGate)
    case Merge(_) => p.gate.MergeApproval? && q == p.(gate := NoGate)
    case Release => p.gate.ReleaseGate? && q == p.(gate := NoGate)
    case Promote => p.gate.RolloutGate? && q == p.(gate := NoGate)
    case Pause => !p.state.Paused? && q == p.(resumeState := Some(p.state), state := Paused)
    case Resume => p.state.Paused? && q == p.(state := HeldPhase(p.resumeState), resumeState := None)
    case Retry => p.state.Failed? && q == p.(state := HeldPhase(p.resumeState), resumeState := None, error := "")
    case Cancel => q == p.(state := Cancelled, gate := NoGate, resumeState := None)
  }

  // A verb changes its own non-terminal pipeline as above, or no pipeline at all.
  lemma VerbShape(d: Durable, project: string, verb: Verb, id: string, now: int)
    requires forall i :: i in d.pipelines ==> d.pipelines[i].id == i
    ensures
      var after := Operate(d, project, verb, id, now).0;
      || after.pipelines == d.pipelines
      || (id in d.pipelines && id in after.pipelines && !d.pipelines[id].state.Terminal()
          && VerbChange(verb, d.pipelines[id], after.pipelines[id])
          && after.pipelines == d.pipelines[id := after.pipelines[id]])
  {
  }

  // The states and gates a verb is for.
  predicate Offered(verb: Verb, p: Pipeline) {
    !p.state.Terminal() &&
    match verb
    case Answer(answers) => p.gate.GroomQuestions? && !Blank(answers)
    case Approve => p.gate.DesignRework?
    case AcceptDesign => p.gate.DesignRework?
    case Merge(_) => p.gate.MergeApproval?
    case Release => p.gate.ReleaseGate?
    case Promote => p.gate.RolloutGate?
    case Pause => !p.state.Paused?
    case Resume => p.state.Paused?
    case Retry => p.state.Failed?
    case Cancel => true
  }

  // The evidence lets the verb's own writes through.
  predicate WritesLand(ev: Evidence, verb: Verb, p: Pipeline, now: int) {
    match verb
    case Answer(_) => p.capture in ev.tickets
    case AcceptDesign => p.session == "" || FindSession(ev.sessions, p.session).Some?
    case Merge(faultAt) => faultAt >= |p.produced| && MergeTasks(ev, p.produced, now).1.None?
    case Release => p.milestone.Some? && QaGate.SetStatus(ev, p.milestone.value, Finished, now).Ok?
    case _ => true
  }

  // A verb is accepted exactly where it is offered and its writes land; then it
  // makes its change, and refused it leaves every pipeline as it was.
  lemma VerbAcceptedIff(d: Durable, project: string, verb: Verb, id: string, now: int)
    requires forall i :: i in d.pipelines ==> d.pipelines[i].id == i && d.pipelines[i].Valid()
    ensures
      var (after, result) := Operate(d, project, verb, id, now);
      && (result.Ok? <==>
          Owned(d, project, id).Ok? && Offered(verb, d.pipelines[id]) && WritesLand(d.ev, verb, d.pipelines[id], now))
      && (result.Ok? ==>
          VerbChange(verb, d.pipelines[id], result.value) && after.pipelines == d.pipelines[id := result.value])
      && (result.Err? ==> after.pipelines == d.pipelines)
  {
    hide MergeTasks, QaGate.SetStatus, FindSession, WriteSession, ReviewGate.ReleaseAll;
  }

  // What any action may do to one stored record: nothing, create or claim it, a
  // verb, or the save of a driven copy whose stage just ran.
  ghost predicate RecordStep(sys: System, w: World, a: Action, id: string, q: Pipeline) {
    || (id in w.d.pipelines && q == w.d.pipelines[id])
    || (id !in w.d.pipelines && a.Enqueue? && q == NewPipeline(id, sys.project, a.capture, a.now))
    || (id in w.d.pipelines && w.d.pipelines[id].state.Queued? && w.worker.Idle? && (a.ClaimQueued? || a.Reown?)
        && q == w.d.pipelines[id].(state := Grooming))
    || (id in w.d.pipelines && !w.d.pipelines[id].state.Terminal() && a.Act? && a.id == id
        && VerbChange(a.verb, w.d.pipelines[id], q))
    || (id in w.d.pipelines && !w.d.pipelines[id].state.Terminal()
        && a.RunStage? && w.worker.Driving? && w.worker.local.id == id && CanRun(sys.stages, w.worker.local)
        && !a.outcome.ret.Stopped? && q == Settle(w.worker.local, a.outcome.ret))
  }

  lemma StepShape(sys: System, w: World, a: Action)
    requires Keyed(sys, w)
    ensures Keyed(sys, Do(sys, w, a))
    ensures w.d.pipelines.Keys <= Do(sys, w, a).d.pipelines.Keys
    ensures forall id :: id in Do(sys, w, a).d.pipelines ==> RecordStep(sys, w, a, id, Do(sys, w, a).d.pipelines[id])
  {
    if a.Act? {
      VerbShape(w.d, sys.project, a.verb, a.id, a.now);
    }
  }

  // Where a driven copy comes from.
  lemma WorkerShape(sys: System, w: World, a: Action)
    requires Keyed(sys, w) && Do(sys, w, a).worker.Driving?
    ensures
      var local := Do(sys, w, a).worker.local;
      || (w.worker == Driving(local) && !(a.RunStage? && CanRun(sys.stages, local)))
      || (w.worker.Idle? && (a.ClaimQueued? || a.Reown?) && local == Do(sys, w, a).d.pipelines[local.id]
          && local.id in w.d.pipelines && !w.d.pipelines[local.id].state.Terminal()
          && (w.d.pipelines[local.id].state.Queued? || local == w.d.pipelines[local.id])
          && (a.Reown? && local.runId != "" ==> !LiveRun(w.d.ev, local.runId)))
      || (w.worker.Driving? && a.RunStage? && CanRun(sys.stages, w.worker.local)
          && Continues(w.worker.local, a.outcome.ret)
          && local == Settle(w.worker.local, a.outcome.ret) && local == Do(sys, w, a).d.pipelines[local.id])
  {
    if a.Act? {
      VerbShape(w.d, sys.project, a.verb, a.id, a.now);
    }
  }

  lemma {:induction false} KeyedAlways(sys: System, start: World, run: seq<Action>, n: nat)
    requires n <= |run| && Keyed(sys, start)
    ensures Keyed(sys, At(sys, start, run, n))
  {
    if n > 0 {
      KeyedAlways(sys, start, run, n - 1);
      StepShape(sys, At(sys, start, run, n - 1), run[n - 1]);
    }
  }

  /* Phase order. */

  // Terminal records never change again.
  lemma {:induction false} TerminalForever(sys: System, start: World, run: seq<Action>, i: nat, j: nat, id: string)
    requires Keyed(sys, start) && i <= j <= |run|
    requires id in At(sys, start, run, i).d.pipelines
    requires At(sys, start, run, i).d.pipelines[id].state in {Done, Cancelled}
    ensures id in At(sys, start, run, j).d.pipelines
    ensures At(sys, start, run, j).d.pipelines[id] == At(sys, start, run, i).d.pipelines[id]
  {
    if i < j {
      TerminalForever(sys, start, run, i, j - 1, id);
      KeyedAlways(sys, start, run, j - 1);
      StepShape(sys, At(sys, start, run, j - 1), run[j - 1]);
    }
  }

  // A stage changes the phase only to the next one, or parks the phase it failed in.
  lemma StagePhases(p: Pipeline, ret: StageReturn)
    requires !ret.Stopped? && p.state.InFlight()
    ensures
      var q := Settle(p, ret);
      || q.state == p.state
      || (Advances(Outcome(Evidence(map[], [], [], map[]), ret)) && Follows(p.state, q.state))
      || (ret.Broke? && q.state.Failed? && Held(q) == p.state)
    ensures Rank(Settle(p, ret)) >= Rank(p)
  {
  }

  // Pause then resume restores the phase, and the whole record unless it held a
  // failure: pausing a failed pipeline overwrites the phase it failed in.
  lemma PauseThenResume(d: Durable, project: string, id: string, at: int, later: int)
    requires Owned(d, project, id).Ok? && d.pipelines[id].Valid() && d.pipelines[id].id == id
    requires !d.pipelines[id].state.Terminal() && !d.pipelines[id].state.Paused?
    ensures
      var p := d.pipelines[id];
      var paused := Operate(d, project, Pause, id, at).0;
      var resumed := Operate(paused, project, Resume, id, later);
      && paused.pipelines[id].state == Paused
      && resumed.1 == Ok(p.(resumeState := None))
      && resumed.0 == d.(pipelines := d.pipelines[id := p.(resumeState := None)])
      && (resumed.0 == d <==> p.resumeState.None?)
  {
  }

  // A stage failure and then a retry returns to the phase that failed.
  lemma FailThenRetry(d: Durable, project: string, p: Pipeline, message: string, now: int)
    requires p.state.InFlight() && p.Valid() && p.project == project
    requires p.id in d.pipelines && Update(d, Settle(p, Broke(message))).Ok?
    ensures
      var failed := Update(d, Settle(p, Broke(message))).value;
      Operate(failed, project, Retry, p.id, now).1 == Ok(p.(resumeState := None, error := ""))
  {
  }

  lemma RecordStepParked(sys: System, w: World, a: Action, id: string, q: Pipeline)
    requires RecordStep(sys, w, a, id, q) && Parked(w) && sys.stages <= IN_FLIGHT
    ensures ParkedProperly(q)
  {
  }

  lemma ParkedStep(sys: System, w: World, a: Action)
    requires Keyed(sys, w) && Parked(w) && sys.stages <= IN_FLIGHT
    ensures Parked(Do(sys, w, a))
  {
    var next := Do(sys, w, a);
    StepShape(sys, w, a);
    forall id | id in next.d.pipelines
      ensures ParkedProperly(next.d.pipelines[id])
    {
      RecordStepParked(sys, w, a, id, next.d.pipelines[id]);
    }
    if next.worker.Driving? {
      WorkerShape(sys, w, a);
    }
  }

  ghost predicate PausesFailed(w: World, a: Action) {
    a.Act? && a.verb.Pause? && a.id in w.d.pipelines && w.d.pipelines[a.id].state.Failed?
  }

  // While a phase is driven the stored record is in that phase, or holds it paused,
  // or is finished: no verb moves it elsewhere.
  ghost predicate InStep(w: World) {
    w.worker.Driving? && w.worker.local.state.InFlight() ==>
      && w.worker.local.id in w.d.pipelines
      && var stored := w.d.pipelines[w.worker.local.id];
         || stored.state.Terminal()
         || stored.state == w.worker.local.state
         || (stored.state.Paused? && stored.resumeState == Some(w.worker.local.state))
  }

  ghost predicate Steady(sys: System, w: World) {
    Keyed(sys, w) && Parked(w) && InStep(w)
  }

  lemma VerbRank(verb: Verb, p: Pipeline, q: Pipeline)
    requires VerbChange(verb, p, q) && ParkedProperly(p) && !p.state.Terminal()
    ensures Rank(q) < Rank(p) <==> verb.Pause? && p.state.Failed? && Rank(p) > 0
    ensures Rank(q) > Rank(p) ==> q.state.Cancelled?
  {
  }

  // The action ran a stage of this pipeline that moves it on to the next phase.
  ghost predicate StageAdvances(sys: System, w: World, a: Action, id: string, q: Pipeline) {
    && a.RunStage? && Enabled(sys, w, a) && w.worker.local.id == id && Advances(a.outcome)
    && q == Settle(w.worker.local, a.outcome.ret) && Follows(w.worker.local.state, q.state)
  }

  lemma RecordStepOrder(sys: System, w: World, a: Action, id: string, q: Pipeline)
    requires Steady(sys, w) && sys.stages <= IN_FLIGHT && RecordStep(sys, w, a, id, q) && id in w.d.pipelines
    ensures
      var p := w.d.pipelines[id];
      && (Rank(q) < Rank(p) <==> PausesFailed(w, a) && a.id == id && Rank(p) > 0 && q != p)
      && (Rank(q) > Rank(p) ==> q.state.Cancelled? || q.state.Grooming? || StageAdvances(sys, w, a, id, q))
  {
    var p := w.d.pipelines[id];
    if q != p {
      if a.Act? {
        VerbRank(a.verb, p, q);
      } else if a.RunStage? {
        StagePhases(w.worker.local, a.outcome.ret);
      }
    }
  }

  // One step lowers the phase a pipeline holds exactly when it pauses it while it is
  // failed, and only a stage that advances raises it past grooming.
  lemma OrderedStep(sys: System, w: World, a: Action, id: string)
    requires Steady(sys, w) && sys.stages <= IN_FLIGHT && id in w.d.pipelines
    ensures id in Do(sys, w, a).d.pipelines
    ensures
      var p, q := w.d.pipelines[id], Do(sys, w, a).d.pipelines[id];
      && (Rank(q) < Rank(p) <==> PausesFailed(w, a) && a.id == id && Rank(p) > 0 && q != p)
      && (Rank(q) > Rank(p) ==> q.state.Cancelled? || q.state.Grooming? || StageAdvances(sys, w, a, id, q))
  {
    StepShape(sys, w, a);
    RecordStepOrder(sys, w, a, id, Do(sys, w, a).d.pipelines[id]);
  }

  lemma VerbInStep(verb: Verb, p: Pipeline, q: Pipeline, phase: State)
    requires VerbChange(verb, p, q) && !p.state.Terminal() && phase.InFlight()
    requires p.state == phase || (p.state.Paused? && p.resumeState == Some(phase))
    ensures q.state.Terminal() || q.state == phase || (q.state.Paused? && q.resumeState == Some(phase))
  {
  }

  lemma InStepKept(sys: System, w: World, a: Action)
    requires Steady(sys, w) && sys.stages <= IN_FLIGHT
    ensures InStep(Do(sys, w, a))
  {
    var next := Do(sys, w, a);
    StepShape(sys, w, a);
    if next.worker.Driving? && next.worker.local.state.InFlight() {
      WorkerShape(sys, w, a);
      var id := next.worker.local.id;
      if w.worker == next.worker && next.d.pipelines[id] != w.d.pipelines[id] {
        assert a.Act?;
        VerbInStep(a.verb, w.d.pipelines[id], next.d.pipelines[id], next.worker.local.state);
      }
    }
  }

  lemma {:induction false} SteadyAlways(sys: System, start: World, run: seq<Action>, n: nat)
    requires Initial(start) && sys.stages <= IN_FLIGHT && n <= |run|
    ensures Steady(sys, At(sys, start, run, n))
  {
    if n > 0 {
      SteadyAlways(sys, start, run, n - 1);
      var w, a := At(sys, start, run, n - 1), run[n - 1];
      StepShape(sys, w, a);
      ParkedStep(sys, w, a);
      InStepKept(sys, w, a);
    }
  }

  // Between two moments of any run in which nobody pauses this pipeline while it is
  // failed, its phase does not go back, whatever happens to the others.
  lemma {:induction false} PhasesNeverGoBack(sys: System, start: World, run: seq<Action>, i: nat, j: nat, id: string)
    requires Initial(start) && sys.stages <= IN_FLIGHT && i <= j <= |run|
    requires id in At(sys, start, run, i).d.pipelines
    requires forall k :: i <= k < j ==> !(PausesFailed(At(sys, start, run, k), run[k]) && run[k].id == id)
    ensures id in At(sys, start, run, j).d.pipelines
    ensures Rank(At(sys, start, run, i).d.pipelines[id]) <= Rank(At(sys, start, run, j).d.pipelines[id])
  {
    if i < j {
      PhasesNeverGoBack(sys, start, run, i, j - 1, id);
      SteadyAlways(sys, start, run, j - 1);
      OrderedStep(sys, At(sys, start, run, j - 1), run[j - 1], id);
    }
  }

  // And that pause does lose the phase: resume and retry then start over from queued.
  lemma PausingAFailureForgetsThePhase(d: Durable, project: string, id: string, now: int)
    requires Owned(d, project, id).Ok? && d.pipelines[id].Valid() && d.pipelines[id].id == id
    requires d.pipelines[id].state.Failed?
    ensures
      var paused := Operate(d, project, Pause, id, now).0;
      var resumed := Operate(paused, project, Resume, id, now).0;
      var retried := Operate(resumed, project, Retry, id, now);
      && retried.1.Ok? && retried.1.value.state.Queued?
      && retried.0.pipelines[id] == d.pipelines[id].(state := Queued, resumeState := None, error := "")
  {
  }
}
