/**
 What one installed stage leaves in the store, phase by phase, and which
 pipelines the drive leaves alone.
 */
module FactoryStages {
  import opened Tickets
  import opened Pipelines
  import opened Stages
  import opened Factory
  import QaGate

  // The save of the driven copy will land.
  predicate Savable(d: Durable, p: Pipeline) {
    && p.Valid() && p.id in d.pipelines && SameOwner(d.pipelines[p.id], p)
    && !d.pipelines[p.id].state.Done? && !d.pipelines[p.id].state.Cancelled?
  }

  // The pipeline went on to this state, or stays in it at a gate.
  function Moved(p: Pipeline, state: State, gate: Gate): Pipeline {
    p.(state := state, gate := gate, runId := "", attempts := p.attempts + 1, resumeState := None)
  }

  // Parked, remembering the phase it failed in.
  function ParkedIn(p: Pipeline, message: string): Pipeline {
    p.(state := Failed, resumeState := Some(p.state), error := message)
  }

  // Only this record and the evidence changed; the supervisor goes on with it
  // exactly when it reached another phase that has a runner.
  predicate EndsAs(d: Durable, p: Pipeline, next: World, q: Pipeline, ev: Evidence) {
    && next.d == Durable(d.pipelines[p.id := q], ev)
    && next.worker == if q.state != p.state && q.state in {Review, Building, Qa, Rollout} then Driving(q) else Idle
  }

  predicate Fails(d: Durable, p: Pipeline, next: World, ev: Evidence) {
    p.id in next.d.pipelines && EndsAs(d, p, next, ParkedIn(p, next.d.pipelines[p.id].error), ev)
  }

  // What a dispatch that did not return leaves: a crash nothing but its writes, an
  // error a parked pipeline.
  predicate FaultEnds(d: Durable, p: Pipeline, next: World, fx: Effect) {
    match fx.fault
    case Some(Stopped) => next == World(d.(ev := fx.ev), Idle)
    case Some(Broke(message)) => EndsAs(d, p, next, ParkedIn(p, message), fx.ev)
    case _ => false
  }

  function Step(d: Durable, p: Pipeline, fx: Effect): World {
    StageStep(d, p, InstalledRun(p, d.ev, fx))
  }

  function Kept(found: string, before: string): string {
    if found != "" then found else before
  }

  function KeptTasks(found: seq<TicketId>, before: seq<TicketId>): seq<TicketId> {
    if found != [] then found else before
  }

  // The first manifest in the store's order that names the capture.
  predicate IsFirstNaming(sessions: seq<Session>, capture: TicketId, i: nat) {
    i < |sessions| && capture in sessions[i].scope && forall j :: 0 <= j < i ==> capture !in sessions[j].scope
  }

  lemma {:induction false} FirstNaming(sessions: seq<Session>, capture: TicketId, i: nat)
    requires IsFirstNaming(sessions, capture, i)
    ensures CaptureSession(sessions, capture) == Some(sessions[i])
  {
    if i > 0 {
      assert capture !in sessions[0].scope;
      forall j | 0 <= j < i - 1
        ensures capture !in sessions[1..][j].scope
      {
        assert sessions[1..][j] == sessions[j + 1];
      }
      FirstNaming(sessions[1..], capture, i - 1);
    }
  }

  // A groomed capture goes on to review with the session and tasks of its manifest.
  lemma GroomReuses(d: Durable, p: Pipeline, fx: Effect, i: nat)
    requires Savable(d, p) && p.state.Grooming? && IsFirstNaming(d.ev.sessions, p.capture, i)
    ensures
      var s := d.ev.sessions[i];
      var q := p.(session := Kept(s.id, p.session), produced := KeptTasks(s.produced, p.produced));
      EndsAs(d, p, Step(d, p, fx), Moved(q, Review, NoGate), d.ev)
  {
    FirstNaming(d.ev.sessions, p.capture, i);
  }

  // One not groomed yet is dispatched, and goes on with the session and the tasks the
  // dispatch returned, with the advisory gate exactly when it deferred questions.
  lemma GroomDispatches(d: Durable, p: Pipeline, fx: Effect)
    requires Savable(d, p) && p.state.Grooming? && forall s :: s in d.ev.sessions ==> p.capture !in s.scope
    ensures
      var next := Step(d, p, fx);
      if fx.Faulty() then FaultEnds(d, p, next, fx)
      else
        var q := p.(session := Kept(fx.sessionId, p.session), produced := KeptTasks(fx.produced, p.produced));
        EndsAs(d, p, next, Moved(q, Review, if fx.deferred then GroomQuestions else NoGate), fx.ev)
  {
  }

  // What a verdict leaves: none fails, needs-rework gates, any other goes on.
  predicate VerdictEnds(d: Durable, p: Pipeline, next: World, verdict: string, ev: Evidence) {
    if verdict == "" then Fails(d, p, next, ev)
    else if verdict == "needs-rework" then EndsAs(d, p, next, Moved(p, Review, DesignRework), ev)
    else EndsAs(d, p, next, Moved(p, Building, NoGate), ev)
  }

  lemma VerdictStep(d: Durable, p: Pipeline, verdict: string, ev: Evidence, message: string)
    requires Savable(d, p) && p.state.Review?
    ensures
      var ret := if verdict == "" then Broke(message)
                 else Finish(if BlocksBuild(verdict) then DesignRework else NoGate);
      VerdictEnds(d, p, StageStep(d, p, Outcome(ev, ret)), verdict, ev)
  {
  }

  lemma FaultStep(d: Durable, p: Pipeline, fx: Effect)
    requires Savable(d, p) && p.state.InFlight() && fx.Faulty()
    ensures FaultEnds(d, p, StageStep(d, p, Outcome(fx.ev, fx.fault.value)), fx)
  {
  }

  lemma BrokeStep(d: Durable, p: Pipeline, message: string, ev: Evidence)
    requires Savable(d, p) && p.state.InFlight()
    ensures Fails(d, p, StageStep(d, p, Outcome(ev, Broke(message))), ev)
  {
  }

  // Review fails without a session; a recorded verdict is used without a dispatch,
  // and after one the verdict on the session counts before the one returned.
  lemma ReviewEnds(d: Durable, p: Pipeline, fx: Effect)
    requires Savable(d, p) && p.state.Review?
    ensures
      var next, record, reread := Step(d, p, fx), FindSession(d.ev.sessions, p.session),
                                  FindSession(fx.ev.sessions, p.session);
      if p.session == "" || record.None? then Fails(d, p, next, d.ev)
      else if record.value.verdict != "" then VerdictEnds(d, p, next, record.value.verdict, d.ev)
      else if fx.Faulty() then FaultEnds(d, p, next, fx)
      else
        VerdictEnds(d, p, next,
                      if reread.Some? && reread.value.verdict != "" then reread.value.verdict else fx.verdict, fx.ev)
  {
    hide StageStep, VerdictEnds, FaultEnds, Fails, Savable;
    var before, after := RecordedVerdict(d.ev, p.session), RecordedVerdict(fx.ev, p.session);
    BrokeStep(d, p, "no session", d.ev);
    BrokeStep(d, p, "session not found", d.ev);
    VerdictStep(d, p, before, d.ev, "no verdict");
    VerdictStep(d, p, if after != "" then after else fx.verdict, fx.ev, "no verdict");
    if fx.Faulty() {
      FaultStep(d, p, fx);
    }
  }

  // Building goes on when every produced task is done or cancelled, waits at the
  // merge gate when the rest are in review, and fails on anything else.
  lemma BuildEnds(d: Durable, p: Pipeline, fx: Effect)
    requires Savable(d, p) && p.state.Building?
    ensures
      var next := Step(d, p, fx);
      if p.produced == [] then Fails(d, p, next, d.ev)
      else if fx.Faulty() then FaultEnds(d, p, next, fx)
      else if forall id :: id in p.produced ==> Exists(fx.ev.tickets, id, {Finished, Dropped}) then
        EndsAs(d, p, next, Moved(p, Qa, NoGate), fx.ev)
      else if forall id :: id in p.produced ==> Exists(fx.ev.tickets, id, {Finished, Dropped, ReadyForReview}) then
        EndsAs(d, p, next, Moved(p, Building, MergeApproval), fx.ev)
      else Fails(d, p, next, fx.ev)
  {
    hide StageStep, FaultEnds, Fails, EndsAs, Savable;
    BrokeStep(d, p, "no produced tasks", d.ev);
    BrokeStep(d, p, "build stalled", fx.ev);
    if fx.Faulty() {
      FaultStep(d, p, fx);
    }
    FinishStep(d, p, NoGate, fx.ev);
    FinishStep(d, p, MergeApproval, fx.ev);
  }

  lemma FinishStep(d: Durable, p: Pipeline, gate: Gate, ev: Evidence)
    requires Savable(d, p) && p.state.Building? && (gate.NoGate? || gate.MergeApproval?)
    ensures
      var next := if gate.NoGate? then Qa else Building;
      EndsAs(d, p, StageStep(d, p, Outcome(ev, Finish(gate))), Moved(p, next, gate), ev)
  {
  }

  // QA goes on exactly on a valid pass, looked for before a dispatch and, if there
  // was none, after it.
  lemma QaEnds(d: Durable, p: Pipeline, fx: Effect)
    requires Savable(d, p) && p.state.Qa?
    ensures
      var next := Step(d, p, fx);
      if p.capture !in d.ev.tickets then Fails(d, p, next, d.ev)
      else if QaGate.Passed(d.ev, p.capture) then EndsAs(d, p, next, Moved(p, Rollout, NoGate), d.ev)
      else if fx.Faulty() then FaultEnds(d, p, next, fx)
      else if QaGate.Passed(fx.ev, p.capture) then EndsAs(d, p, next, Moved(p, Rollout, NoGate), fx.ev)
      else Fails(d, p, next, fx.ev)
  {
    hide QaGate.Passed;
  }

  lemma RolloutEnds(d: Durable, p: Pipeline, fx: Effect)
    requires Savable(d, p) && p.state.Rollout?
    ensures EndsAs(d, p, Step(d, p, fx), Moved(p, Done, NoGate), d.ev)
  {
  }

  // A stage that hands its work to an external run leaves the phase, and names the run.
  lemma HandOffWaits(d: Durable, p: Pipeline, outcome: Outcome)
    requires Savable(d, p) && outcome.ret.Returned? && !outcome.ret.result.done
    ensures EndsAs(d, p, StageStep(d, p, outcome), p.(runId := Kept(outcome.ret.result.runId, p.runId)), outcome.ev)
  {
  }

  // Once the record is done or cancelled nothing a stage returns reaches it.
  lemma FinishedIsOutOfReach(d: Durable, p: Pipeline, outcome: Outcome)
    requires p.id in d.pipelines && (d.pipelines[p.id].state.Done? || d.pipelines[p.id].state.Cancelled?)
    ensures StageStep(d, p, outcome) == World(d.(ev := outcome.ev), Idle)
  {
  }

  // A pipeline at a gate is left alone; without one, or with only the advisory
  // questions open, its stage runs.
  lemma GatesHold(crew: Crew, d: Durable, p: Pipeline, n: nat)
    requires crew.IsInstalled()
    ensures
      var after := DriveAll(crew, d, p, n);
      if p.gate in {DesignRework, MergeApproval, ReleaseGate, RolloutGate}
         || p.state !in {Grooming, Review, Building, Qa, Rollout}
      then after == Progress(d, None, n)
      else after.ran > n
  {
    hide Crew.Run, StageStep;
    if CanRun(crew.runners.Keys, p) {
      var w := StageStep(d, p, crew.Run(n, p, d.ev));
      if w.worker.Driving? {
        StepCloser(d, p, crew.Run(n, p, d.ev));
        RanGrows(crew, w.d, w.worker.local, n + 1);
      }
    }
  }

  lemma StepCloser(d: Durable, p: Pipeline, outcome: Outcome)
    requires p.state in IN_FLIGHT && StageStep(d, p, outcome).worker.Driving?
    ensures PhaseRank(StageStep(d, p, outcome).worker.local.state) > PhaseRank(p.state)
  {
  }

  lemma {:induction false} RanGrows(crew: Crew, d: Durable, p: Pipeline, n: nat)
    requires crew.runners.Keys <= IN_FLIGHT
    ensures DriveAll(crew, d, p, n).ran >= n
    decreases 7 - PhaseRank(p.state)
  {
    hide Crew.Run, StageStep;
    if CanRun(crew.runners.Keys, p) {
      var w := StageStep(d, p, crew.Run(n, p, d.ev));
      if w.worker.Driving? {
        StepCloser(d, p, crew.Run(n, p, d.ev));
        RanGrows(crew, w.d, w.worker.local, n + 1);
      }
    }
  }
}
