/**
 The factory as a transition system: the store, and a supervisor that may be
 driving its own copy of one pipeline while operators and agents write.
 */
module Factory {
  import opened Tickets
  import opened Pipelines
  import opened Stages
  import QaGate
  import ReviewGate
  import Text

  const IN_FLIGHT: set<State> := {Grooming, Review, Building, Qa, Rollout}

  /* One stage and its save. */

  // The record after a stage returned; an interrupted stage records nothing.
  function Settle(p: Pipeline, ret: StageReturn): Pipeline
    requires !ret.Stopped?
  {
    match ret
    case Broke(message) => p.(resumeState := Some(p.state), state := Failed, error := message)
    case Returned(result) =>
      var dispatched := if result.runId != "" then p.(runId := result.runId) else p;
      if !result.done then dispatched
      else
        var finished := dispatched.(
          session := if result.session != "" then result.session else p.session,
          produced := if result.produced != [] then result.produced else p.produced,
          runId := "", attempts := p.attempts + 1, gate := result.gate, resumeState := None);
        if result.gate.Blocking() then finished else finished.(state := NextState(p.state))
  }

  // The drive loop goes round again.
  predicate Continues(p: Pipeline, ret: StageReturn) {
    && ret.Returned? && ret.result.done && !ret.result.gate.Blocking()
    && !NextState(p.state).Done?
  }

  datatype Worker = Idle | Driving(local: Pipeline)

  datatype World = World(d: Durable, worker: Worker)

  function StageStep(d: Durable, local: Pipeline, outcome: Outcome): World {
    var after := d.(ev := outcome.ev);
    if outcome.ret.Stopped? then World(after, Idle)
    else
      var saved := Update(after, Settle(local, outcome.ret));
      match saved
      case Err(_) => World(after, Idle)
      case Ok(next) => World(next, if Continues(local, outcome.ret) then Driving(Settle(local, outcome.ret)) else Idle)
  }

  predicate CanRun(stages: set<State>, p: Pipeline) {
    !p.gate.Blocking() && p.state in stages
  }

  /* Operator verbs. */

  datatype Verb =
    | Answer(answers: string) | Approve | Merge(faultAt: nat) | Release | Promote
    | Pause | Resume | Retry | Cancel
    | AcceptDesign

  function Owned(d: Durable, project: string, id: string): Result<Pipeline> {
    if id !in d.pipelines || d.pipelines[id].project != project then Err(NotFound) else Ok(d.pipelines[id])
  }

  function AtGate(d: Durable, project: string, id: string, want: Gate): Result<Pipeline> {
    match Owned(d, project, id)
    case Err(e) => Err(e)
    case Ok(p) => if p.state.Terminal() || p.gate != want then Err(Conflict) else Ok(p)
  }

  // A refused or faulted verb keeps what it already wrote to the evidence.
  function Saved(d: Durable, ev: Evidence, p: Pipeline): (Durable, Result<Pipeline>) {
    match Update(d.(ev := ev), p)
    case Err(e) => (d.(ev := ev), Err(e))
    case Ok(next) => (next, Ok(p))
  }

  // The merge loop: it stops at the first status change the store refuses.
  function MergeTasks(ev: Evidence, produced: seq<TicketId>, now: int): (Evidence, Option<Error>) {
    if produced == [] then (ev, None)
    else
      var n := |produced| - 1;
      var (before, error) := MergeTasks(ev, produced[..n], now);
      if error.Some? || !AwaitsMerge(before.tickets, produced[n]) then (before, error)
      else
        match QaGate.SetStatus(before, produced[n], Finished, now)
        case Ok(next) => (next, None)
        case Err(e) => (before, Some(e))
  }

  function ClearGate(d: Durable, ev: Evidence, p: Pipeline): (Durable, Result<Pipeline>) {
    Saved(d, ev, p.(gate := NoGate))
  }

  // approveGroomSession: release the gate's blocks and store the approving verdict.
  function ApproveSession(ev: Evidence, p: Pipeline, now: int): Result<Evidence> {
    if p.session == "" then Ok(ev)
    else
      match FindSession(ev.sessions, p.session)
      case None => Err(NotFound)
      case Some(record) =>
        var released := ReviewGate.ReleaseAll(ev, record.blocked, now);
        Ok(released.(sessions := WriteSession(released.sessions, record.(verdict := APPROVE, blocked := []))))
  }

  predicate Blank(answers: string) {
    Text.Trim(answers) == ""
  }

  function Operate(d: Durable, project: string, verb: Verb, id: string, now: int): (Durable, Result<Pipeline>) {
    match verb
    case Answer(answers) =>
      if Blank(answers) then (d, Err(Invalid))
      else
        (match AtGate(d, project, id, GroomQuestions)
         case Err(e) => (d, Err(e))
         case Ok(p) =>
           match QaGate.AddNote(d.ev, p.capture, now)
           case Err(e) => (d, Err(e))
           case Ok(noted) => ClearGate(d, noted, p))
    case Approve =>
      (match AtGate(d, project, id, DesignRework)
       case Err(e) => (d, Err(e))
       case Ok(p) => ClearGate(d, d.ev, p))
    case Merge(faultAt) =>
      (match AtGate(d, project, id, MergeApproval)
       case Err(e) => (d, Err(e))
       case Ok(p) =>
         var faulted := faultAt < |p.produced|;
         var (merged, error) := MergeTasks(d.ev, if faulted then p.produced[..faultAt] else p.produced, now);
         if error.Some? then (d.(ev := merged), Err(error.value))
         else if faulted then (d.(ev := merged), Err(Stage("store fault")))
         else ClearGate(d, merged, p))
    case Release =>
      (match AtGate(d, project, id, ReleaseGate)
       case Err(e) => (d, Err(e))
       case Ok(p) =>
         if p.milestone.None? then (d, Err(Invalid))
         else
           match QaGate.SetStatus(d.ev, p.milestone.value, Finished, now)
           case Err(e) => (d, Err(e))
           case Ok(closed) => ClearGate(d, closed, p))
    case Promote =>
      (match AtGate(d, project, id, RolloutGate)
       case Err(e) => (d, Err(e))
       case Ok(p) => ClearGate(d, d.ev, p))
    case AcceptDesign =>
      (match AtGate(d, project, id, DesignRework)
       case Err(e) => (d, Err(e))
       case Ok(p) =>
         match ApproveSession(d.ev, p, now)
         case Err(e) => (d, Err(e))
         case Ok(approved) => ClearGate(d, approved, p))
    case Pause =>
      (match Owned(d, project, id)
       case Err(e) => (d, Err(e))
       case Ok(p) =>
         if p.state.Terminal() || p.state.Paused? then (d, Err(Conflict))
         else Saved(d, d.ev, p.(resumeState := Some(p.state), state := Paused)))
    case Resume =>
      (match Owned(d, project, id)
       case Err(e) => (d, Err(e))
       case Ok(p) =>
         if !p.state.Paused? then (d, Err(Conflict))
         else Saved(d, d.ev, p.(state := HeldPhase(p.resumeState), resumeState := None)))
    case Retry =>
      (match Owned(d, project, id)
       case Err(e) => (d, Err(e))
       case Ok(p) =>
         if !p.state.Failed? then (d, Err(Conflict))
         else Saved(d, d.ev, p.(state := HeldPhase(p.resumeState), resumeState := None, error := "")))
    case Cancel =>
      (match Owned(d, project, id)
       case Err(e) => (d, Err(e))
       case Ok(p) =>
         if p.state.Terminal() then (d, Err(Conflict))
         else Saved(d, d.ev, p.(state := Cancelled, gate := NoGate, resumeState := None)))
  }

  /* The transition system. */

  datatype System = System(project: string, stages: set<State>)

  // Enqueue is the store's create; the listing it does first changes nothing.
  // A run stage whose outcome is Stopped is a crash between the stage's writes
  // and the save; Leave is the drive loop returning, or dying between stages.
  datatype Action =
    | Enqueue(id: string, capture: TicketId, now: int)
    | ClaimQueued(id: string)
    | Reown(id: string)
    | RunStage(outcome: Outcome)
    | Leave
    | Act(verb: Verb, id: string, now: int)
    | Outside(ev: Evidence)

  predicate LiveRun(ev: Evidence, id: string) {
    id in ev.runs && ev.runs[id].live
  }

  predicate Enabled(sys: System, w: World, a: Action) {
    match a
    case ClaimQueued(id) => w.worker.Idle? && IsOldestQueued(w.d.pipelines, sys.project, id)
    case Reown(id) => w.worker.Idle? && ClaimById(w.d, sys.project, id).Ok?
    case RunStage(_) => w.worker.Driving? && CanRun(sys.stages, w.worker.local)
    case _ => true
  }

  function Do(sys: System, w: World, a: Action): World {
    if !Enabled(sys, w, a) then w
    else
      match a
      case Enqueue(id, capture, now) =>
        (match Create(w.d, NewPipeline(id, sys.project, capture, now))
         case Ok(d) => World(d, w.worker)
         case Err(_) => w)
      case ClaimQueued(id) =>
        var p := w.d.pipelines[id].(state := Grooming);
        World(w.d.(pipelines := w.d.pipelines[id := p]), Driving(p))
      case Reown(id) =>
        var p := ClaimById(w.d, sys.project, id).value;
        World(w.d.(pipelines := w.d.pipelines[id := p]),
              if p.runId != "" && LiveRun(w.d.ev, p.runId) then Idle else Driving(p))
      case RunStage(outcome) => StageStep(w.d, w.worker.local, outcome)
      case Leave => World(w.d, Idle)
      case Act(verb, id, now) => World(Operate(w.d, sys.project, verb, id, now).0, w.worker)
      case Outside(ev) => World(w.d.(ev := ev), w.worker)
  }

  // The world after the first n actions of a run.
  function At(sys: System, start: World, run: seq<Action>, n: nat): World
    requires n <= |run|
  {
    if n == 0 then start else Do(sys, At(sys, start, run, n - 1), run[n - 1])
  }

  function DoAll(sys: System, start: World, run: seq<Action>): World {
    At(sys, start, run, |run|)
  }

  lemma {:induction false} AtPrefix(sys: System, start: World, run: seq<Action>, more: seq<Action>, n: nat)
    requires n <= |run|
    ensures At(sys, start, run + more, n) == At(sys, start, run, n)
  {
    if n > 0 {
      AtPrefix(sys, start, run, more, n - 1);
      assert (run + more)[n - 1] == run[n - 1];
    }
  }

  lemma {:induction false} DoAllConcat(sys: System, start: World, run: seq<Action>, more: seq<Action>)
    ensures DoAll(sys, start, run + more) == DoAll(sys, DoAll(sys, start, run), more)
  {
    if more == [] {
      assert run + more == run;
    } else {
      var n := |more| - 1;
      DoAllConcat(sys, start, run, more[..n]);
      assert run + more == run + more[..n] + [more[n]];
      assert more == more[..n] + [more[n]];
      AtPrefix(sys, start, run + more[..n], [more[n]], |run| + n);
      AtPrefix(sys, DoAll(sys, start, run), more[..n], [more[n]], n);
    }
  }

  ghost predicate Initial(w: World) {
    w.d.pipelines == map[] && w.worker.Idle?
  }

  // A stage that is one of the installed runners.
  ghost predicate InstalledStage(w: World, outcome: Outcome) {
    w.worker.Driving? ==>
      exists fx :: Faithful(w.worker.local, fx) && outcome == InstalledRun(w.worker.local, w.d.ev, fx)
  }

  ghost predicate InstalledStages(sys: System, start: World, run: seq<Action>) {
    forall i :: 0 <= i < |run| && run[i].RunStage? && Enabled(sys, At(sys, start, run, i), run[i]) ==>
                  InstalledStage(At(sys, start, run, i), run[i].outcome)
  }

  // A run where every executed stage is one of the installed runners.
  ghost predicate Installed(sys: System, start: World, run: seq<Action>) {
    sys.stages == IN_FLIGHT && InstalledStages(sys, start, run)
  }

  lemma {:induction false} InstalledConcat(sys: System, start: World, run: seq<Action>, more: seq<Action>)
    requires InstalledStages(sys, start, run) && InstalledStages(sys, DoAll(sys, start, run), more)
    ensures InstalledStages(sys, start, run + more)
  {
    hide Do, Enabled, InstalledStage;
    var whole := run + more;
    forall i | 0 <= i < |whole| && whole[i].RunStage? && Enabled(sys, At(sys, start, whole, i), whole[i])
      ensures InstalledStage(At(sys, start, whole, i), whole[i].outcome)
    {
      if i < |run| {
        AtPrefix(sys, start, run, more, i);
      } else {
        AtConcat(sys, start, run, more, i - |run|);
      }
    }
  }

  lemma {:induction false} AtConcat(sys: System, start: World, run: seq<Action>, more: seq<Action>, n: nat)
    requires n <= |more|
    ensures At(sys, start, run + more, |run| + n) == At(sys, DoAll(sys, start, run), more, n)
  {
    hide Do;
    if n == 0 {
      AtPrefix(sys, start, run, more, |run|);
    } else {
      AtConcat(sys, start, run, more, n - 1);
      assert (run + more)[|run| + n - 1] == more[n - 1];
    }
  }

  /* Driving a pipeline as far as it goes. */

  // The error a stage and its save end the drive with.
  function StageError(d: Durable, local: Pipeline, outcome: Outcome): Option<Error> {
    if outcome.ret.Stopped? then Some(Interrupted)
    else
      match Update(d.(ev := outcome.ev), Settle(local, outcome.ret))
      case Err(e) => Some(e)
      case Ok(_) => None
  }

  // The store, the error a call ends with, and how many stages have been run.
  datatype Progress = Progress(d: Durable, error: Option<Error>, ran: nat)

  // Termination: with runners only for in-flight phases, each stage that goes
  // round again is one phase closer to done.
  function DriveAll(crew: Crew, d: Durable, local: Pipeline, n: nat): Progress
    requires crew.runners.Keys <= IN_FLIGHT
    decreases 7 - PhaseRank(local.state)
  {
    if !CanRun(crew.runners.Keys, local) then Progress(d, None, n)
    else
      var outcome := crew.Run(n, local, d.ev);
      var w := StageStep(d, local, outcome);
      if w.worker.Idle? then Progress(w.d, StageError(d, local, outcome), n + 1)
      else DriveAll(crew, w.d, w.worker.local, n + 1)
  }

  function DriveRun(crew: Crew, d: Durable, local: Pipeline, n: nat): seq<Action>
    requires crew.runners.Keys <= IN_FLIGHT
    decreases 7 - PhaseRank(local.state)
  {
    if !CanRun(crew.runners.Keys, local) then [Leave]
    else
      var outcome := crew.Run(n, local, d.ev);
      var w := StageStep(d, local, outcome);
      [RunStage(outcome)] + if w.worker.Idle? then [] else DriveRun(crew, w.d, w.worker.local, n + 1)
  }

  // The first stage of a drive, as a run of one action.
  lemma FirstStage(sys: System, crew: Crew, d: Durable, local: Pipeline, n: nat)
    requires sys.stages == crew.runners.Keys && CanRun(sys.stages, local)
    ensures
      var outcome := crew.Run(n, local, d.ev);
      && DoAll(sys, World(d, Driving(local)), [RunStage(outcome)]) == StageStep(d, local, outcome)
      && (crew.IsInstalled() ==> InstalledStages(sys, World(d, Driving(local)), [RunStage(outcome)]))
  {
    hide StageStep, GroomRun, ReviewRun, BuildRun, QaRun, Faithful;
    var outcome, start := crew.Run(n, local, d.ev), World(d, Driving(local));
    assert At(sys, start, [RunStage(outcome)], 1) == Do(sys, At(sys, start, [RunStage(outcome)], 0), RunStage(outcome));
    if crew.IsInstalled() {
      var fx := crew.agents(n, local, d.ev);
      assert Faithful(local, fx) && outcome == InstalledRun(local, d.ev, fx);
      assert InstalledStage(start, outcome);
    }
  }

  // Driving is a run of the system that ends with an idle supervisor; with the
  // installed stage map it is a run of the installed runners.
  lemma {:induction false} DriveIsARun(sys: System, crew: Crew, d: Durable, local: Pipeline, n: nat)
    requires crew.runners.Keys <= IN_FLIGHT && sys.stages == crew.runners.Keys
    ensures DoAll(sys, World(d, Driving(local)), DriveRun(crew, d, local, n)) ==
              World(DriveAll(crew, d, local, n).d, Idle)
    ensures crew.IsInstalled() ==> InstalledStages(sys, World(d, Driving(local)), DriveRun(crew, d, local, n))
    decreases 7 - PhaseRank(local.state)
  {
    hide InstalledStages, Crew.Run, Crew.IsInstalled;
    var start := World(d, Driving(local));
    if !CanRun(sys.stages, local) {
      LeaveRun(sys, start);
    } else {
      var first := RunStage(crew.Run(n, local, d.ev));
      var w := StageStep(d, local, first.outcome);
      FirstStage(sys, crew, d, local, n);
      if w.worker.Driving? {
        var rest := DriveRun(crew, w.d, w.worker.local, n + 1);
        DriveIsARun(sys, crew, w.d, w.worker.local, n + 1);
        DoAllConcat(sys, start, [first], rest);
        if crew.IsInstalled() {
          InstalledConcat(sys, start, [first], rest);
        }
      } else {
        assert DriveRun(crew, d, local, n) == [first];
      }
    }
  }

  lemma LeaveRun(sys: System, start: World)
    ensures DoAll(sys, start, [Leave]) == World(start.d, Idle) && InstalledStages(sys, start, [Leave])
  {
    assert At(sys, start, [Leave], 1) == Do(sys, At(sys, start, [Leave], 0), Leave);
  }
}
