/**
 The installed stage runners. A dispatched agent is an arbitrary effect: it may leave
 any evidence behind, and return anything or fail.
 */
module Stages {
  import opened Tickets
  import opened Pipelines
  import opened Store
  import QaGate

  // done false: the work went to an external run (runId) and the stage waits.
  datatype StageResult = StageResult(done: bool, gate: Gate, runId: string, session: string, produced: seq<TicketId>)

  // Interrupted: the process stopped with the stage's writes already durable.
  datatype StageReturn = Returned(result: StageResult) | Broke(message: string) | Stopped

  datatype Outcome = Outcome(ev: Evidence, ret: StageReturn)

  // What one dispatch of an agent (or loop) does: the evidence it leaves, and
  // its return. fault is None when the dispatch returns without an error.
  datatype Effect = Effect(
    ev: Evidence, fault: Option<StageReturn>,
    sessionId: string, produced: seq<TicketId>, deferred: bool, verdict: string)
  {
    predicate Faulty() { fault.Some? && !fault.value.Returned? }
  }

  function Finish(gate: Gate): StageReturn {
    Returned(StageResult(true, gate, "", "", []))
  }

  /* Grooming. */

  // The oldest recorded session whose scope names the capture.
  function CaptureSession(sessions: seq<Session>, capture: TicketId): (r: Option<Session>)
    ensures r.Some? ==> r.value in sessions && capture in r.value.scope
    ensures r.None? <==> forall s :: s in sessions ==> capture !in s.scope
  {
    if sessions == [] then None
    else if capture in sessions[0].scope then Some(sessions[0])
    else CaptureSession(sessions[1..], capture)
  }

  function GroomRun(p: Pipeline, before: Evidence, fx: Effect): Outcome {
    var existing := CaptureSession(before.sessions, p.capture);
    if existing.Some? then
      Outcome(before, Returned(StageResult(true, NoGate, "", existing.value.id, existing.value.produced)))
    else if fx.Faulty() then Outcome(fx.ev, fx.fault.value)
    else
      Outcome(fx.ev, Returned(
              StageResult(true, if fx.deferred then GroomQuestions else NoGate, "", fx.sessionId, fx.produced)))
  }

  method ExistingCaptureSession(sessions: seq<Session>, capture: TicketId) returns (found: Option<Session>)
    ensures found == CaptureSession(sessions, capture)
  {
    for i := 0 to |sessions|
      invariant CaptureSession(sessions, capture) == CaptureSession(sessions[i..], capture)
    {
      var scope := sessions[i].scope;
      assert sessions[i..][1..] == sessions[i + 1..];
      for j := 0 to |scope|
        invariant capture !in scope[..j]
      {
        if scope[j] == capture {
          return Some(sessions[i]);
        }
      }
      assert scope[..|scope|] == scope;
    }
    found := None;
  }

  method RunGroom(backend: Backend, p: Pipeline, fx: Effect) returns (ret: StageReturn)
    modifies backend`ev
    ensures GroomRun(p, old(backend.ev), fx) == Outcome(backend.ev, ret)
  {
    var existing := ExistingCaptureSession(backend.ev.sessions, p.capture);
    if existing.Some? {
      return Returned(StageResult(true, NoGate, "", existing.value.id, existing.value.produced));
    }
    backend.ev := fx.ev;
    if fx.Faulty() {
      return fx.fault.value;
    }
    var gate := NoGate;
    if fx.deferred {
      gate := GroomQuestions;
    }
    ret := Returned(StageResult(true, gate, "", fx.sessionId, fx.produced));
  }

  /* Architecture review. */

  function RecordedVerdict(ev: Evidence, session: string): string {
    match FindSession(ev.sessions, session)
    case Some(record) => record.verdict
    case None => ""
  }

  function ReviewRun(p: Pipeline, before: Evidence, fx: Effect): Outcome {
    if p.session == "" then Outcome(before, Broke("no session"))
    else if FindSession(before.sessions, p.session).None? then Outcome(before, Broke("session not found"))
    else
      var recorded := RecordedVerdict(before, p.session);
      if recorded != "" then
        Outcome(before, Finish(if BlocksBuild(recorded) then DesignRework else NoGate))
      else if fx.Faulty() then Outcome(fx.ev, fx.fault.value)
      else
        var reread := RecordedVerdict(fx.ev, p.session);
        var verdict := if reread != "" then reread else fx.verdict;
        Outcome(fx.ev,
                if verdict == "" then Broke("no verdict")
                else Finish(if BlocksBuild(verdict) then DesignRework else NoGate))
  }

  method RunReview(backend: Backend, p: Pipeline, fx: Effect) returns (ret: StageReturn)
    modifies backend`ev
    ensures ReviewRun(p, old(backend.ev), fx) == Outcome(backend.ev, ret)
  {
    if p.session == "" {
      return Broke("no session");
    }
    var record := FindSession(backend.ev.sessions, p.session);
    if record.None? {
      return Broke("session not found");
    }
    var verdict := record.value.verdict;
    if verdict == "" {
      backend.ev := fx.ev;
      if fx.Faulty() {
        return fx.fault.value;
      }
      verdict := fx.verdict;
      var recorded := RecordedVerdict(backend.ev, p.session);
      if recorded != "" {
        verdict := recorded;
      }
    }
    if verdict == "" {
      return Broke("no verdict");
    }
    var gate := NoGate;
    if BlocksBuild(verdict) {
      gate := DesignRework;
    }
    ret := Finish(gate);
  }

  /* Build. */

  datatype BuildCounts = BuildCounts(resolved: nat, awaiting: nat, open: nat)

  predicate BuildResolved(tickets: map<TicketId, Ticket>, id: TicketId) {
    id in tickets && (tickets[id].status.Finished? || tickets[id].status.Dropped?)
  }

  predicate AwaitsMerge(tickets: map<TicketId, Ticket>, id: TicketId) {
    id in tickets && tickets[id].status.ReadyForReview?
  }

  // The ticket exists, in one of these statuses.
  predicate Exists(tickets: map<TicketId, Ticket>, id: TicketId, statuses: set<Status>) {
    id in tickets && tickets[id].status in statuses
  }

  // Decided by which tasks exist in which status, with no counting.
  function BuildRun(p: Pipeline, before: Evidence, fx: Effect): Outcome {
    if p.produced == [] then Outcome(before, Broke("no produced tasks"))
    else if fx.Faulty() then Outcome(fx.ev, fx.fault.value)
    else if exists id | id in p.produced :: !BuildResolved(fx.ev.tickets, id) && !AwaitsMerge(fx.ev.tickets, id) then
      Outcome(fx.ev, Broke("build stalled"))
    else if exists id | id in p.produced :: AwaitsMerge(fx.ev.tickets, id) then
      Outcome(fx.ev, Finish(MergeApproval))
    else Outcome(fx.ev, Finish(NoGate))
  }

  // The counting loop: every produced task is counted once, and a count is zero
  // exactly when no produced task is of that sort.
  method CountProduced(tickets: map<TicketId, Ticket>, produced: seq<TicketId>) returns (counts: BuildCounts)
    ensures counts.resolved + counts.awaiting + counts.open == |produced|
    ensures counts.resolved > 0 <==> exists id :: id in produced && BuildResolved(tickets, id)
    ensures counts.awaiting > 0 <==> exists id :: id in produced && AwaitsMerge(tickets, id)
    ensures counts.open > 0 <==> exists id :: id in produced && !BuildResolved(tickets, id) && !AwaitsMerge(tickets, id)
  {
    var resolved, awaiting, open := 0, 0, 0;
    for i := 0 to |produced|
      invariant resolved + awaiting + open == i
      invariant resolved > 0 <==> exists id :: id in produced[..i] && BuildResolved(tickets, id)
      invariant awaiting > 0 <==> exists id :: id in produced[..i] && AwaitsMerge(tickets, id)
      invariant open > 0 <==>
                exists id :: id in produced[..i] && !BuildResolved(tickets, id) && !AwaitsMerge(tickets, id)
    {
      var id := produced[i];
      assert produced[..i + 1] == produced[..i] + [id];
      assert id in produced[..i + 1];
      if id !in tickets {
        open := open + 1;
      } else {
        match tickets[id].status {
          case Finished | Dropped => resolved := resolved + 1;
          case ReadyForReview => awaiting := awaiting + 1;
          case _ => open := open + 1;
        }
      }
    }
    assert produced[..|produced|] == produced;
    counts := BuildCounts(resolved, awaiting, open);
  }

  method RunBuild(backend: Backend, p: Pipeline, fx: Effect) returns (ret: StageReturn)
    modifies backend`ev
    ensures BuildRun(p, old(backend.ev), fx) == Outcome(backend.ev, ret)
  {
    if |p.produced| == 0 {
      return Broke("no produced tasks");
    }
    backend.ev := fx.ev;
    if fx.Faulty() {
      return fx.fault.value;
    }
    var counts := CountProduced(backend.ev.tickets, p.produced);
    if counts.open > 0 {
      ret := Broke("build stalled");
    } else if counts.awaiting > 0 {
      ret := Finish(MergeApproval);
    } else {
      ret := Finish(NoGate);
    }
  }

  /* QA and rollout. */

  function QaRun(p: Pipeline, before: Evidence, fx: Effect): Outcome {
    if p.capture !in before.tickets then Outcome(before, Broke("capture not found"))
    else if QaGate.Passed(before, p.capture) then Outcome(before, Finish(NoGate))
    else if fx.Faulty() then Outcome(fx.ev, fx.fault.value)
    else if QaGate.Passed(fx.ev, p.capture) then Outcome(fx.ev, Finish(NoGate))
    else Outcome(fx.ev, Broke("QA did not pass"))
  }

  method RunQa(backend: Backend, p: Pipeline, fx: Effect) returns (ret: StageReturn)
    modifies backend`ev
    ensures QaRun(p, old(backend.ev), fx) == Outcome(backend.ev, ret)
  {
    if p.capture !in backend.ev.tickets {
      return Broke("capture not found");
    }
    var passed := QaGate.Passed(backend.ev, p.capture);
    if passed {
      return Finish(NoGate);
    }
    backend.ev := fx.ev;
    if fx.Faulty() {
      return fx.fault.value;
    }
    passed := QaGate.Passed(backend.ev, p.capture);
    if !passed {
      return Broke("QA did not pass");
    }
    ret := Finish(NoGate);
  }

  // The installed stage map.
  function InstalledRun(p: Pipeline, before: Evidence, fx: Effect): Outcome {
    match p.state
    case Grooming => GroomRun(p, before, fx)
    case Review => ReviewRun(p, before, fx)
    case Building => BuildRun(p, before, fx)
    case Qa => QaRun(p, before, fx)
    case _ => Outcome(before, Finish(NoGate))
  }

  // The stage map holds the installed runners, or runners nothing is known of.
  datatype Runner =
    | GroomRunner | ReviewRunner | BuildRunner | QaRunner | RolloutRunner
    | OtherRunner(run: (nat, Pipeline, Evidence) -> Outcome)

  // A stage map, and the agents its stages dispatch: what the n-th stage run of
  // this supervisor meets, for the pipeline and the evidence it finds.
  datatype Crew = Crew(runners: map<State, Runner>, agents: (nat, Pipeline, Evidence) -> Effect) {
    function Run(n: nat, p: Pipeline, before: Evidence): Outcome
      requires p.state in runners
    {
      var fx := agents(n, p, before);
      match runners[p.state]
      case GroomRunner => GroomRun(p, before, fx)
      case ReviewRunner => ReviewRun(p, before, fx)
      case BuildRunner => BuildRun(p, before, fx)
      case QaRunner => QaRun(p, before, fx)
      case RolloutRunner => Outcome(before, Finish(NoGate))
      case OtherRunner(run) => run(n, p, before)
    }

    // The installed stage map, with a review function that reads the verdict it
    // returns off the session.
    ghost predicate IsInstalled() {
      && runners == map[Grooming := GroomRunner, Review := ReviewRunner, Building := BuildRunner, Qa := QaRunner,
                        Rollout := RolloutRunner]
      && forall n, p, before :: Faithful(p, agents(n, p, before))
    }
  }

  // Runs the runner installed for the pipeline's state against the store.
  method ExecuteStage(backend: Backend, crew: Crew, n: nat, p: Pipeline) returns (ret: StageReturn)
    requires p.state in crew.runners
    modifies backend`ev
    ensures crew.Run(n, p, old(backend.ev)) == Outcome(backend.ev, ret)
  {
    var fx := crew.agents(n, p, backend.ev);
    match crew.runners[p.state] {
      case GroomRunner =>
        ret := RunGroom(backend, p, fx);
      case ReviewRunner =>
        ret := RunReview(backend, p, fx);
      case BuildRunner =>
        ret := RunBuild(backend, p, fx);
      case QaRunner =>
        ret := RunQa(backend, p, fx);
      case RolloutRunner =>
        ret := Finish(NoGate);
      case OtherRunner(run) =>
        var outcome := run(n, p, backend.ev);
        backend.ev := outcome.ev;
        ret := outcome.ret;
    }
  }

  // The production review function returns the verdict it reads off the session,
  // and fails when the session cannot be read.
  ghost predicate Faithful(p: Pipeline, fx: Effect) {
    p.state.Review? && !fx.Faulty() ==>
      FindSession(fx.ev.sessions, p.session).Some? && fx.verdict == RecordedVerdict(fx.ev, p.session)
  }

  /* What leaving a phase proves. */

  ghost predicate Evident(phase: State, p: Pipeline, ev: Evidence) {
    match phase
    case Review =>
      && p.session != ""
      && RecordedVerdict(ev, p.session) != ""
      && !BlocksBuild(RecordedVerdict(ev, p.session))
    case Building =>
      p.produced != [] && forall id :: id in p.produced ==> BuildResolved(ev.tickets, id)
    case Qa => QaGate.Passed(ev, p.capture)
    case _ => true
  }

  ghost predicate Advances(outcome: Outcome) {
    outcome.ret.Returned? && outcome.ret.result.done && !outcome.ret.result.gate.Blocking()
  }

  // Build and QA advance only on their evidence, whatever the dispatch does.
  lemma BuildAndQaAreEvident(p: Pipeline, before: Evidence, fx: Effect)
    requires p.state.Building? || p.state.Qa?
    ensures Advances(InstalledRun(p, before, fx)) ==> Evident(p.state, p, InstalledRun(p, before, fx).ev)
  {
  }

  // Build advances exactly when it has produced tasks, the dispatch returned, and all of them resolved.
  lemma BuildAdvancesIff(p: Pipeline, before: Evidence, fx: Effect)
    requires p.state.Building?
    ensures Advances(InstalledRun(p, before, fx)) <==> !fx.Faulty() && Evident(Building, p, fx.ev)
  {
  }

  // Build opens the merge gate exactly when the dispatch returned, there are produced
  // tasks, each is done, cancelled or in review, and one is in review.
  lemma BuildGatesIff(p: Pipeline, before: Evidence, fx: Effect)
    ensures BuildRun(p, before, fx).ret == Finish(MergeApproval) <==>
            && !fx.Faulty() && p.produced != []
            && (forall id :: id in p.produced ==> Exists(fx.ev.tickets, id, {Finished, Dropped, ReadyForReview}))
            && (exists id :: id in p.produced && Exists(fx.ev.tickets, id, {ReadyForReview}))
  {
  }

  // When the dispatch returned, build fails exactly when nothing was produced, or a
  // produced task is missing or in any other status.
  lemma BuildFailsIff(p: Pipeline, before: Evidence, fx: Effect)
    requires !fx.Faulty()
    ensures BuildRun(p, before, fx).ret.Broke? <==>
            || p.produced == []
            || (exists id :: id in p.produced && !Exists(fx.ev.tickets, id, {Finished, Dropped, ReadyForReview}))
  {
  }

  // The review runner trusts a returned verdict that was never recorded. When it
  // advances, the session carries the approval if and only if it was recorded
  // before the dispatch or by the time the dispatch returned.
  lemma ReviewIsEvidentIffRecorded(p: Pipeline, before: Evidence, fx: Effect)
    requires p.state.Review? && Advances(ReviewRun(p, before, fx))
    ensures Evident(Review, p, ReviewRun(p, before, fx).ev)
            <==> RecordedVerdict(before, p.session) != "" || RecordedVerdict(fx.ev, p.session) != ""
  {
  }

  lemma UnrecordedApprovalAdvances()
    ensures
      var p := NewPipeline("pl", "p", "i", 0).(state := Review, session := "s");
      var ev := Evidence(map[], [Session("s", ["i"], [], "", [])], [], map[]);
      var fx := Effect(ev, None, "", [], false, APPROVE);
      Advances(ReviewRun(p, ev, fx)) && !Evident(Review, p, ReviewRun(p, ev, fx).ev)
  {
  }

  lemma FaithfulReviewIsEvident(p: Pipeline, before: Evidence, fx: Effect)
    requires Faithful(p, fx)
    ensures Advances(InstalledRun(p, before, fx)) ==> Evident(p.state, p, InstalledRun(p, before, fx).ev)
  {
  }
}
