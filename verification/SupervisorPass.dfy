/**
 What a supervisor pass that meets no error has achieved: nothing of the project is
 left in flight that could go on, and the oldest queued pipeline was started.
 */
module SupervisorPass {
  import opened Tickets
  import opened Pipelines
  import opened Stages
  import opened Factory
  import opened Controller
  import FactoryStages
  import QaGate

  // In one of the five phases.
  predicate UnderWay(p: Pipeline) {
    p.state in {Grooming, Review, Building, Qa, Rollout}
  }

  // Not under way, waiting at a gate, or left to an external run.
  predicate AtRest(p: Pipeline) {
    !UnderWay(p) || p.gate in {DesignRework, MergeApproval, ReleaseGate, RolloutGate} || p.runId != ""
  }

  // Under its own id, with the owner it had, and not queued.
  predicate Follower(p: Pipeline, q: Pipeline) {
    q.id == p.id && SameOwner(p, q) && !q.state.Queued?
  }

  ghost predicate SelfNamed(d: Durable) {
    forall id :: id in d.pipelines ==> d.pipelines[id].id == id
  }

  // Only this record changed, and it came to rest.
  predicate Settles(before: Durable, after: Durable, id: string) {
    && id in before.pipelines && id in after.pipelines
    && after.pipelines == before.pipelines[id := after.pipelines[id]]
    && Follower(before.pipelines[id], after.pipelines[id]) && AtRest(after.pipelines[id])
  }

  // An installed stage either goes on with the record it saved, or leaves it at rest.
  lemma StageSettles(crew: Crew, d: Durable, p: Pipeline, n: nat)
    requires crew.IsInstalled() && CanRun(crew.runners.Keys, p)
    requires p.id in d.pipelines && d.pipelines[p.id] == p
    ensures
      var outcome := crew.Run(n, p, d.ev);
      var w := StageStep(d, p, outcome);
      && (w.worker.Driving? ==>
            Follower(p, w.worker.local) && w.d.pipelines == d.pipelines[p.id := w.worker.local])
      && (w.worker.Idle? && StageError(d, p, outcome).None? ==> Settles(d, w.d, p.id))
  {
    hide QaGate.Passed;
  }

  lemma {:induction false} DriveSettles(crew: Crew, d: Durable, p: Pipeline, n: nat)
    requires crew.IsInstalled() && p.id in d.pipelines && d.pipelines[p.id] == p && !p.state.Queued?
    ensures
      var after := DriveAll(crew, d, p, n);
      after.error.None? ==> Settles(d, after.d, p.id)
    decreases 7 - PhaseRank(p.state)
  {
    hide Crew.Run, StageStep;
    if CanRun(crew.runners.Keys, p) {
      var w := StageStep(d, p, crew.Run(n, p, d.ev));
      StageSettles(crew, d, p, n);
      if w.worker.Driving? {
        FactoryStages.StepCloser(d, p, crew.Run(n, p, d.ev));
        DriveSettles(crew, w.d, w.worker.local, n + 1);
      }
    }
  }

  // Records changed only by coming to rest, and no queued one changed.
  ghost predicate Calms(before: Durable, after: Durable) {
    && after.pipelines.Keys == before.pipelines.Keys
    && forall id :: id in before.pipelines ==>
         || after.pipelines[id] == before.pipelines[id]
         || (!before.pipelines[id].state.Queued?
             && Follower(before.pipelines[id], after.pipelines[id]) && AtRest(after.pipelines[id]))
  }

  ghost predicate Quiet(d: Durable, project: string, id: string) {
    id in d.pipelines && d.pipelines[id].project == project ==> AtRest(d.pipelines[id])
  }

  lemma ResumedCalms(project: string, crew: Crew, at: Progress, id: string)
    requires crew.IsInstalled() && SelfNamed(at.d)
    requires id in at.d.pipelines ==> !at.d.pipelines[id].state.Queued?
    ensures
      var after := Resumed(project, crew, at, id);
      after.error.None? ==> Calms(at.d, after.d) && Quiet(after.d, project, id)
  {
    hide DriveAll;
    match ClaimById(at.d, project, id)
    case Err(_) =>
    case Ok(p) =>
      assert at.d.pipelines[id := p] == at.d.pipelines;
      DriveSettles(crew, at.d, p, at.ran);
  }

  lemma {:induction false} AllResumedCalm(project: string, crew: Crew, at: Progress, listing: seq<string>)
    requires crew.IsInstalled() && SelfNamed(at.d)
    requires forall id :: id in listing && id in at.d.pipelines ==> !at.d.pipelines[id].state.Queued?
    ensures
      var after := ResumedAll(project, crew, at, listing);
      after.error.None? ==> Calms(at.d, after.d) && forall id :: id in listing ==> Quiet(after.d, project, id)
    decreases listing
  {
    hide Resumed;
    if listing != [] {
      var next := Resumed(project, crew, at, listing[0]);
      ResumedCalms(project, crew, at, listing[0]);
      if next.error.None? {
        AllResumedCalm(project, crew, next, listing[1..]);
      }
    }
  }

  lemma {:induction false} PhasesCalm(project: string, crew: Crew, at: Progress, phases: seq<State>, after: Progress)
    requires crew.IsInstalled() && SelfNamed(at.d) && Queued !in phases
    requires Resumes(project, crew, at, phases, after) && after.error.None?
    ensures Calms(at.d, after.d)
    ensures forall id :: id in at.d.pipelines && at.d.pipelines[id].state in phases ==> Quiet(after.d, project, id)
    decreases phases
  {
    hide ResumedAll;
    if phases != [] {
      var listing :| IsListing(at.d.pipelines, InPhase(project, phases[0]), listing)
        && var next := ResumedAll(project, crew, at, listing);
           if next.error.Some? then after == next else Resumes(project, crew, next, phases[1..], after);
      var next := ResumedAll(project, crew, at, listing);
      ListsThePhase(at.d.pipelines, project, phases[0], listing);
      AllResumedCalm(project, crew, at, listing);
      PhasesCalm(project, crew, next, phases[1..], after);
    }
  }

  // The listing of a phase holds just the project's pipelines in it.
  lemma ListsThePhase(pipelines: map<string, Pipeline>, project: string, phase: State, listing: seq<string>)
    requires IsListing(pipelines, InPhase(project, phase), listing)
    ensures forall id :: id in listing <==>
                           id in pipelines && pipelines[id].project == project && pipelines[id].state == phase
  {
  }

  // A candidate under way is run exactly when no gate holds it and no external run of
  // it is live; otherwise the store is as it was.
  lemma ResumedRunsIff(project: string, crew: Crew, at: Progress, id: string)
    requires crew.IsInstalled() && SelfNamed(at.d)
    requires id in at.d.pipelines && at.d.pipelines[id].project == project && UnderWay(at.d.pipelines[id])
    ensures
      var p, after := at.d.pipelines[id], Resumed(project, crew, at, id);
      var live := p.runId != "" && p.runId in at.d.ev.runs && at.d.ev.runs[p.runId].live;
      if live || p.gate in {DesignRework, MergeApproval, ReleaseGate, RolloutGate}
      then after == at.(error := None)
      else after.ran > at.ran
  {
    hide DriveAll;
    var p := at.d.pipelines[id];
    assert at.d.pipelines[id := p] == at.d.pipelines;
    FactoryStages.GatesHold(crew, at.d, p, at.ran);
  }

  // Once everything is resumed, every pipeline of the project is at rest.
  lemma ResumeLeavesNothing(project: string, crew: Crew, at: Progress, after: Progress)
    requires crew.IsInstalled() && SelfNamed(at.d)
    requires Resumes(project, crew, at, PHASES, after) && after.error.None?
    ensures Calms(at.d, after.d)
    ensures forall id :: id in after.d.pipelines && after.d.pipelines[id].project == project ==>
                           AtRest(after.d.pipelines[id])
  {
    PhasesCalm(project, crew, at, PHASES, after);
  }

  // The oldest queued pipeline left the queue, and no other did.
  ghost predicate Started(before: Durable, after: Durable, project: string, id: string) {
    && IsOldestQueued(before.pipelines, project, id)
    && forall other :: IsQueued(after.pipelines, project, other) <==>
                         other != id && IsQueued(before.pipelines, project, other)
  }

  // Taking the oldest queued pipeline: it alone changes, and comes to rest.
  lemma TakenSettles(project: string, crew: Crew, at: Progress, id: string)
    requires crew.IsInstalled() && SelfNamed(at.d) && IsOldestQueued(at.d.pipelines, project, id)
    ensures
      var p := Claimed(at.d, id);
      var after := DriveAll(crew, at.d.(pipelines := at.d.pipelines[id := p]), p, at.ran);
      after.error.None? ==>
        && id in after.d.pipelines && after.d.pipelines == at.d.pipelines[id := after.d.pipelines[id]]
        && AtRest(after.d.pipelines[id]) && Started(at.d, after.d, project, id)
  {
    hide DriveAll;
    var p := Claimed(at.d, id);
    DriveSettles(crew, at.d.(pipelines := at.d.pipelines[id := p]), p, at.ran);
  }

  // A pass without an error leaves every pipeline of the project at rest, and has
  // started the oldest queued one if there was one.
  lemma PassLeavesNothing(project: string, crew: Crew, at: Progress, after: Progress)
    requires crew.IsInstalled() && SelfNamed(at.d)
    requires Passes(project, crew, at, after) && after.error.None?
    ensures after.d.pipelines.Keys == at.d.pipelines.Keys
    ensures forall id :: id in after.d.pipelines && after.d.pipelines[id].project == project ==>
                           AtRest(after.d.pipelines[id])
    ensures if forall id :: !IsQueued(at.d.pipelines, project, id) then Calms(at.d, after.d)
            else exists id :: Started(at.d, after.d, project, id)
  {
    hide Resumes, DriveAll, AtRest, Started;
    var resumed :| Resumes(project, crew, at, PHASES, resumed)
      && if resumed.error.Some? then after == resumed else Takes(project, crew, resumed, after);
    ResumeLeavesNothing(project, crew, at, resumed);
    SameQueue(at.d, resumed.d, project);
    if exists id :: IsQueued(resumed.d.pipelines, project, id) {
      var id :| IsOldestQueued(resumed.d.pipelines, project, id)
        && var p := Claimed(resumed.d, id);
           after == DriveAll(crew, resumed.d.(pipelines := resumed.d.pipelines[id := p]), p, resumed.ran);
      TakenSettles(project, crew, resumed, id);
      StartedBefore(at.d, resumed.d, after.d, project, id);
    }
  }

  lemma StartedBefore(first: Durable, before: Durable, after: Durable, project: string, id: string)
    requires Calms(first, before) && Started(before, after, project, id)
    ensures Started(first, after, project, id)
  {
    SameQueue(first, before, project);
  }

  lemma SameQueue(before: Durable, after: Durable, project: string)
    requires Calms(before, after)
    ensures forall id :: IsQueued(after.pipelines, project, id) <==> IsQueued(before.pipelines, project, id)
    ensures forall id :: IsQueued(after.pipelines, project, id) ==> after.pipelines[id] == before.pipelines[id]
  {
  }
}
