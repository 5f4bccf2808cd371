/**
 The controller: it owns pipelines in the store, drives one stage at a time, and
 carries the operator verbs. Each method is proved against the transition system.
 */
module Controller {
  import opened Tickets
  import opened Pipelines
  import opened Store
  import opened Stages
  import opened Factory
  import opened FactorySafety
  import QaGate
  import ReviewGate

  // An executable ticket of the project already depends on the capture.
  predicate Promoted(tickets: map<TicketId, Ticket>, project: string, capture: TicketId) {
    exists id | id in tickets :: tickets[id].project == project && tickets[id].IsFeatureOf(capture)
  }

  // The capture is work itself, is marked to be left alone, or was turned into work.
  predicate Skipped(d: Durable, project: string, capture: Ticket, noAuto: bool) {
    || capture.kind.Task? || capture.kind.Milestone? || noAuto
    || exists id | id in d.ev.tickets ::
         var t := d.ev.tickets[id];
         t.project == project && (t.kind.Task? || t.kind.Milestone?) && capture.id in t.deps
  }

  /* A supervisor pass. */

  const PHASES := [Grooming, Review, Building, Qa, Rollout]

  // One candidate: gone or finished ones are passed over, one whose external run
  // is live is left to it, any other is driven as far as it goes.
  function Resumed(project: string, crew: Crew, at: Progress, id: string): Progress
    requires crew.runners.Keys <= IN_FLIGHT
  {
    match ClaimById(at.d, project, id)
    case Err(_) => at.(error := None)
    case Ok(p) =>
      var claimed := at.d.(pipelines := at.d.pipelines[id := p]);
      if p.runId != "" && LiveRun(at.d.ev, p.runId) then Progress(claimed, None, at.ran)
      else DriveAll(crew, claimed, p, at.ran)
  }

  // The candidates of one listing in turn; the first error ends the pass.
  function ResumedAll(project: string, crew: Crew, at: Progress, listing: seq<string>): Progress
    requires crew.runners.Keys <= IN_FLIGHT
    decreases listing
  {
    if listing == [] then at.(error := None)
    else
      var next := Resumed(project, crew, at, listing[0]);
      if next.error.Some? then next else ResumedAll(project, crew, next, listing[1..])
  }

  function InPhase(project: string, phase: State): Filter {
    Filter(project, None, Some(phase))
  }

  // The phases in turn, each listed when its turn comes.
  ghost predicate Resumes(project: string, crew: Crew, at: Progress, phases: seq<State>, after: Progress)
    requires crew.runners.Keys <= IN_FLIGHT
    decreases phases
  {
    if phases == [] then after == at.(error := None)
    else
      exists listing :: IsListing(at.d.pipelines, InPhase(project, phases[0]), listing)
        && var next := ResumedAll(project, crew, at, listing);
           if next.error.Some? then after == next else Resumes(project, crew, next, phases[1..], after)
  }

  // Whatever the remaining phases end in, all of them end in.
  ghost predicate LeadsTo(project: string, crew: Crew, start: Progress, all: seq<State>, at: Progress, rest: seq<State>)
    requires crew.runners.Keys <= IN_FLIGHT
  {
    forall after :: Resumes(project, crew, at, rest, after) ==> Resumes(project, crew, start, all, after)
  }

  lemma {:induction false} ResumedPhase(project: string, crew: Crew, start: Progress, all: seq<State>, at: Progress,
                                        rest: seq<State>, listing: seq<string>)
    requires crew.runners.Keys <= IN_FLIGHT && rest != []
    requires IsListing(at.d.pipelines, InPhase(project, rest[0]), listing)
    requires LeadsTo(project, crew, start, all, at, rest)
    ensures
      var next := ResumedAll(project, crew, at, listing);
      if next.error.Some? then Resumes(project, crew, start, all, next)
      else LeadsTo(project, crew, start, all, next, rest[1..])
  {
    hide IsListing, ResumedAll;
    var next := ResumedAll(project, crew, at, listing);
    if next.error.Some? {
      assert Resumes(project, crew, at, rest, next);
    } else {
      forall after | Resumes(project, crew, next, rest[1..], after)
        ensures Resumes(project, crew, start, all, after)
      {
        assert Resumes(project, crew, at, rest, after);
      }
    }
  }

  function Claimed(d: Durable, id: string): Pipeline
    requires id in d.pipelines
  {
    d.pipelines[id].(state := Grooming)
  }

  // Claim the oldest queued pipeline, if there is one, and drive it.
  ghost predicate Takes(project: string, crew: Crew, at: Progress, after: Progress)
    requires crew.runners.Keys <= IN_FLIGHT
  {
    if forall id :: !IsQueued(at.d.pipelines, project, id) then after == at.(error := None)
    else
      exists id :: IsOldestQueued(at.d.pipelines, project, id)
        && var p := Claimed(at.d, id);
           after == DriveAll(crew, at.d.(pipelines := at.d.pipelines[id := p]), p, at.ran)
  }

  // Resume everything in flight, then take one queued pipeline.
  ghost predicate Passes(project: string, crew: Crew, at: Progress, after: Progress)
    requires crew.runners.Keys <= IN_FLIGHT
  {
    exists resumed :: Resumes(project, crew, at, PHASES, resumed)
      && if resumed.error.Some? then after == resumed else Takes(project, crew, resumed, after)
  }

  // What a run of the system has to be to account for a call of the supervisor:
  // it leads from the one store to the other, and with the installed stage map it
  // executes none but the installed runners.
  ghost predicate Accounts(sys: System, crew: Crew, before: Durable, run: seq<Action>, after: Durable) {
    && DoAll(sys, World(before, Idle), run) == World(after, Idle)
    && (crew.IsInstalled() ==> InstalledStages(sys, World(before, Idle), run))
  }

  lemma AccountsNothing(sys: System, crew: Crew, d: Durable)
    ensures Accounts(sys, crew, d, [], d)
  {
  }

  lemma AccountsBoth(sys: System, crew: Crew, d: Durable, run: seq<Action>,
                    mid: Durable, more: seq<Action>, after: Durable)
    requires Accounts(sys, crew, d, run, mid) && Accounts(sys, crew, mid, more, after)
    ensures Accounts(sys, crew, d, run + more, after)
  {
    hide InstalledStages, Crew.IsInstalled;
    DoAllConcat(sys, World(d, Idle), run, more);
    if crew.IsInstalled() {
      InstalledConcat(sys, World(d, Idle), run, more);
    }
  }

  // A claim that starts driving, and then the drive.
  lemma AccountsClaim(sys: System, crew: Crew, d: Durable, claim: Action, claimed: Durable, p: Pipeline, n: nat)
    requires crew.runners.Keys <= IN_FLIGHT && sys.stages == crew.runners.Keys
    requires !claim.RunStage? && Do(sys, World(d, Idle), claim) == World(claimed, Driving(p))
    ensures Accounts(sys, crew, d, [claim] + DriveRun(crew, claimed, p, n), DriveAll(crew, claimed, p, n).d)
  {
    hide Do, Crew.IsInstalled, DriveAll, DriveRun;
    var start, rest := World(d, Idle), DriveRun(crew, claimed, p, n);
    assert At(sys, start, [claim], 1) == Do(sys, At(sys, start, [claim], 0), claim);
    DriveIsARun(sys, crew, claimed, p, n);
    DoAllConcat(sys, start, [claim], rest);
    if crew.IsInstalled() {
      InstalledConcat(sys, start, [claim], rest);
    }
  }

  lemma AccountsLeft(sys: System, crew: Crew, d: Durable, claim: Action, claimed: Durable)
    requires !claim.RunStage? && Do(sys, World(d, Idle), claim) == World(claimed, Idle)
    ensures Accounts(sys, crew, d, [claim], claimed)
  {
    hide Do, Crew.IsInstalled;
    assert At(sys, World(d, Idle), [claim], 1) == Do(sys, At(sys, World(d, Idle), [claim], 0), claim);
  }

  class Controller {
    const backend: Backend
    const project: string
    const crew: Crew

    // How many stages this supervisor has run.
    var ran: nat

    constructor (backend: Backend, project: string, crew: Crew)
      ensures this.backend == backend && this.project == project && this.crew == crew && ran == 0
    {
      this.backend := backend;
      this.project := project;
      this.crew := crew;
      this.ran := 0;
    }

    function Sys(): System {
      System(project, crew.runners.Keys)
    }

    function Now(error: Option<Error>): Progress
      reads this, backend
    {
      Progress(backend.View(), error, ran)
    }

    /* The capture hook. */

    // One pipeline per capture: a capture of another project is refused, a skipped
    // one starts none, the oldest existing pipeline is returned, and otherwise one
    // is queued, unless its id is taken.
    method Enqueue(capture: Option<Ticket>, noAuto: bool, newId: string, now: int)
      returns (result: Result<Option<Pipeline>>)
      modifies backend`pipelines
      ensures !Accepts(capture) ==> result == Err(Invalid) && backend.View() == old(backend.View())
      ensures Accepts(capture) && Skipped(old(backend.View()), project, capture.value, noAuto)
              ==> result == Ok(None) && backend.View() == old(backend.View())
      ensures Accepts(capture) && !Skipped(old(backend.View()), project, capture.value, noAuto) ==>
                if CaptureTaken(old(backend.pipelines), project, capture.value.id) then
                  && backend.View() == old(backend.View())
                  && ReturnsOldest(old(backend.pipelines), capture.value.id, result)
                else
                  var p := Pipeline(newId, project, capture.value.id, None,
                                    Queued, NoGate, "", "", [], "", 0, None, now);
                  && (!p.Valid() ==> result == Err(Invalid))
                  && (p.Valid() && newId in old(backend.pipelines) ==> result == Ok(None))
                  && (p.Valid() && newId !in old(backend.pipelines) ==> result == Ok(Some(p)))
                  && backend.pipelines ==
                      if result == Ok(Some(p)) then old(backend.pipelines)[newId := p] else old(backend.pipelines)
      ensures OnePerCapture(old(backend.pipelines)) ==> OnePerCapture(backend.pipelines)
    {
      if capture.None? {
        return Err(Invalid);
      }
      var c := capture.value;
      if c.project != "" && c.project != project {
        return Err(Invalid);
      }
      if c.kind.Executable() {
        return Ok(None);
      }
      if noAuto {
        return Ok(None);
      }
      if Promoted(backend.ev.tickets, project, c.id) {
        return Ok(None);
      }
      var existing := backend.ListPipelines(OfCapture(c.id));
      if |existing| > 0 {
        assert existing[0] in existing;
        return Ok(Some(backend.pipelines[existing[0]]));
      }
      assert forall id :: id in backend.pipelines ==> id !in existing;
      var p := NewPipeline(newId, project, c.id, now);
      var error := backend.CreatePipeline(p);
      if error == Some(AlreadyExists) {
        return Ok(None);
      }
      if error.Some? {
        return Err(error.value);
      }
      result := Ok(Some(p));
    }

    predicate Accepts(capture: Option<Ticket>) {
      capture.Some? && (capture.value.project == "" || capture.value.project == project)
    }

    function OfCapture(capture: TicketId): Filter {
      Filter(project, Some(capture), None)
    }

    ghost predicate ReturnsOldest(pipelines: map<string, Pipeline>, capture: TicketId,
                                  result: Result<Option<Pipeline>>) {
      exists listing :: IsListing(pipelines, OfCapture(capture), listing) && listing != [] && listing[0] in pipelines
                        && result == Ok(Some(pipelines[listing[0]]))
    }

    /* The supervisor. */

    // One turn of the drive loop: run the stage, settle the record, save it.
    method DriveStage(pipeline: Pipeline) returns (local: Pipeline, again: bool, error: Option<Error>)
      requires pipeline.state in crew.runners
      modifies backend, this`ran
      ensures ran == old(ran) + 1
      ensures
        var outcome := crew.Run(old(ran), pipeline, old(backend.ev));
        && StageStep(old(backend.View()), pipeline, outcome) ==
              World(backend.View(), if again then Driving(local) else Idle)
        && (!again ==> error == StageError(old(backend.View()), pipeline, outcome))
    {
      hide Crew.Run;
      local, again := pipeline, false;
      var ret := ExecuteStage(backend, crew, ran, pipeline);
      ran := ran + 1;
      match ret {
        case Stopped =>
          error := Some(Interrupted);
        case Broke(message) =>
          local := local.(resumeState := Some(local.state));
          local := local.(state := Failed);
          local := local.(error := message);
          error := backend.UpdatePipeline(local);
        case Returned(result) =>
          if result.runId != "" {
            local := local.(runId := result.runId);
          }
          if !result.done {
            error := backend.UpdatePipeline(local);
            return;
          }
          if result.session != "" {
            local := local.(session := result.session);
          }
          if |result.produced| > 0 {
            local := local.(produced := result.produced);
          }
          local := local.(runId := "");
          local := local.(attempts := local.attempts + 1);
          local := local.(gate := result.gate);
          local := local.(resumeState := None);
          if !result.gate.Blocking() {
            local := local.(state := NextState(local.state));
          }
          assert local == Settle(pipeline, ret);
          error := backend.UpdatePipeline(local);
          again := !result.gate.Blocking() && error.None? && !local.state.Done?;
      }
    }

    method Drive(pipeline: Pipeline) returns (error: Option<Error>)
      requires crew.runners.Keys <= IN_FLIGHT
      modifies backend, this`ran
      ensures Now(error) == DriveAll(crew, old(backend.View()), pipeline, old(ran))
    {
      hide Crew.Run, StageStep;
      var local := pipeline;
      while true
        invariant DriveAll(crew, backend.View(), local, ran) == DriveAll(crew, old(backend.View()), pipeline, old(ran))
        decreases 7 - PhaseRank(local.state)
      {
        if local.gate.Blocking() {
          return None;
        }
        if local.state !in crew.runners {
          return None;
        }
        ghost var before, turn, driven := backend.View(), ran, local;
        var again;
        local, again, error := DriveStage(local);
        if !again {
          return error;
        }
        CloserToDone(before, driven, crew.Run(turn, driven, before.ev));
      }
    }

    // Claims one candidate again and drives it, unless its external run is live.
    method ResumeOne(id: string) returns (error: Option<Error>, ghost run: seq<Action>)
      requires crew.runners.Keys <= IN_FLIGHT
      modifies backend, this`ran
      ensures Now(error) == Resumed(project, crew, old(Now(None)), id)
      ensures Accounts(Sys(), crew, old(backend.View()), run, backend.View())
    {
      hide Accounts, DriveAll, DriveRun;
      ghost var start := backend.View();
      var claimed := backend.Reclaim(project, id);
      if claimed.Err? {
        AccountsNothing(Sys(), crew, start);
        return None, [];
      }
      var p := claimed.value;
      assert p == ClaimById(start, project, id).value;
      if p.runId != "" {
        var live := LiveRun(backend.ev, p.runId);
        if live {
          AccountsLeft(Sys(), crew, start, Reown(id), backend.View());
          return None, [Reown(id)];
        }
      }
      ghost var turn, claimedView := ran, backend.View();
      AccountsClaim(Sys(), crew, start, Reown(id), claimedView, p, turn);
      error := Drive(p);
      run := [Reown(id)] + DriveRun(crew, claimedView, p, turn);
    }

    // The listing is taken once; a candidate may have moved on before its turn.
    method ResumePhase(phase: State) returns (error: Option<Error>, ghost run: seq<Action>, ghost listing: seq<string>)
      requires crew.runners.Keys <= IN_FLIGHT
      modifies backend, this`ran
      ensures IsListing(old(backend.pipelines), InPhase(project, phase), listing)
      ensures Now(error) == ResumedAll(project, crew, old(Now(None)), listing)
      ensures Accounts(Sys(), crew, old(backend.View()), run, backend.View())
    {
      hide Accounts, IsListing, Resumed;
      ghost var start := Now(None);
      run := [];
      error := None;
      AccountsNothing(Sys(), crew, start.d);
      var listed := backend.ListPipelines(InPhase(project, phase));
      listing := listed;
      assert listed[0..] == listed;
      for i := 0 to |listed|
        invariant error.None?
        invariant Accounts(Sys(), crew, start.d, run, backend.View())
        invariant ResumedAll(project, crew, start, listing) == ResumedAll(project, crew, Now(None), listed[i..])
      {
        assert listed[i..][0] == listed[i] && listed[i..][1..] == listed[i + 1..];
        ghost var mid := backend.View();
        ghost var more;
        error, more := ResumeOne(listed[i]);
        AccountsBoth(Sys(), crew, start.d, run, mid, more, backend.View());
        run := run + more;
        if error.Some? {
          return;
        }
      }
    }

    method ResumeInflight() returns (error: Option<Error>, ghost run: seq<Action>)
      requires crew.runners.Keys <= IN_FLIGHT
      modifies backend, this`ran
      ensures Resumes(project, crew, old(Now(None)), [Grooming, Review, Building, Qa, Rollout], Now(error))
      ensures Accounts(Sys(), crew, old(backend.View()), run, backend.View())
    {
      hide Accounts, IsListing, ResumedAll;
      ghost var start := Now(None);
      run := [];
      error := None;
      AccountsNothing(Sys(), crew, start.d);
      assert PHASES[0..] == PHASES;
      for i := 0 to |PHASES|
        invariant Accounts(Sys(), crew, start.d, run, backend.View())
        invariant error.None? && LeadsTo(project, crew, start, PHASES, Now(None), PHASES[i..])
      {
        ghost var before := Now(None);
        ghost var more, listing;
        error, more, listing := ResumePhase(PHASES[i]);
        assert PHASES[i..][0] == PHASES[i] && PHASES[i..][1..] == PHASES[i + 1..];
        AccountsBoth(Sys(), crew, start.d, run, before.d, more, backend.View());
        run := run + more;
        ResumedPhase(project, crew, start, PHASES, before, PHASES[i..], listing);
        if error.Some? {
          return;
        }
      }
    }

    method TakeQueued() returns (error: Option<Error>, ghost run: seq<Action>)
      requires crew.runners.Keys <= IN_FLIGHT
      modifies backend, this`ran
      ensures Takes(project, crew, old(Now(None)), Now(error))
      ensures Accounts(Sys(), crew, old(backend.View()), run, backend.View())
    {
      hide Accounts, DriveAll, DriveRun;
      ghost var start := backend.View();
      var claimed, id := backend.ClaimQueued(project);
      if claimed.None? {
        AccountsNothing(Sys(), crew, start);
        return None, [];
      }
      var p := claimed.value;
      ghost var turn, claimedView := ran, backend.View();
      AccountsClaim(Sys(), crew, start, ClaimQueued(id), claimedView, p, turn);
      error := Drive(p);
      run := [ClaimQueued(id)] + DriveRun(crew, claimedView, p, turn);
    }

    // One supervisor pass. It is a run of the transition system, and with the
    // installed stage map a run of the installed runners.
    method Step() returns (error: Option<Error>, ghost run: seq<Action>)
      requires crew.runners.Keys <= IN_FLIGHT
      modifies backend, this`ran
      ensures Passes(project, crew, old(Now(None)), Now(error))
      ensures Accounts(Sys(), crew, old(backend.View()), run, backend.View())
    {
      hide Accounts, Resumes, Takes;
      ghost var start := backend.View();
      error, run := ResumeInflight();
      if error.Some? {
        return;
      }
      ghost var mid := backend.View();
      ghost var more;
      error, more := TakeQueued();
      AccountsBoth(Sys(), crew, start, run, mid, more, backend.View());
      run := run + more;
    }

    /* Operator verbs. */

    method ValidateGate(id: string, want: Gate) returns (result: Result<Pipeline>)
      ensures result == AtGate(backend.View(), project, id, want)
    {
      if id !in backend.pipelines || backend.pipelines[id].project != project {
        return Err(NotFound);
      }
      var p := backend.pipelines[id];
      if p.state.Terminal() {
        return Err(Conflict);
      }
      if p.gate != want {
        return Err(Conflict);
      }
      result := Ok(p);
    }

    // Save is shared by every verb: the store decides, and a refusal changes nothing.
    method Save(p: Pipeline) returns (result: Result<Pipeline>)
      modifies backend`pipelines
      ensures (backend.View(), result) == Saved(old(backend.View()), old(backend.ev), p)
    {
      var error := backend.UpdatePipeline(p);
      result := if error.Some? then Err(error.value) else Ok(p);
    }

    method Answer(id: string, answers: string, now: int) returns (result: Result<Pipeline>)
      modifies backend
      ensures (backend.View(), result) == Operate(old(backend.View()), project, Verb.Answer(answers), id, now)
    {
      if Blank(answers) {
        return Err(Invalid);
      }
      result := ValidateGate(id, GroomQuestions);
      if result.Ok? {
        var noted := QaGate.AddNote(backend.ev, result.value.capture, now);
        if noted.Err? {
          return Err(noted.error);
        }
        backend.ev := noted.value;
        result := Save(result.value.(gate := NoGate));
      }
    }

    method Approve(id: string, now: int) returns (result: Result<Pipeline>)
      modifies backend
      ensures (backend.View(), result) == Operate(old(backend.View()), project, Verb.Approve, id, now)
    {
      result := ValidateGate(id, DesignRework);
      if result.Ok? {
        result := Save(result.value.(gate := NoGate));
      }
    }

    method Merge(id: string, now: int, faultAt: nat) returns (result: Result<Pipeline>)
      modifies backend
      ensures (backend.View(), result) == Operate(old(backend.View()), project, Verb.Merge(faultAt), id, now)
    {
      result := ValidateGate(id, MergeApproval);
      if result.Ok? {
        var p := result.value;
        for i := 0 to |p.produced|
          invariant i <= faultAt
          invariant backend.pipelines == old(backend.pipelines)
          invariant MergeTasks(old(backend.ev), p.produced[..i], now) == (backend.ev, None)
        {
          assert p.produced[..i + 1][..i] == p.produced[..i];
          MergePrefix(old(backend.ev), p.produced, i + 1, now);
          if i == faultAt {
            return Err(Stage("store fault"));
          }
          if AwaitsMerge(backend.ev.tickets, p.produced[i]) {
            var error := backend.SetTicketStatus(p.produced[i], Finished, now);
            if error.Some? {
              if faultAt < |p.produced| {
                assert p.produced[..faultAt][..i + 1] == p.produced[..i + 1];
                MergePrefix(old(backend.ev), p.produced[..faultAt], i + 1, now);
              }
              return Err(error.value);
            }
          }
        }
        assert p.produced[..|p.produced|] == p.produced;
        result := Save(p.(gate := NoGate));
      }
    }

    method Release(id: string, now: int) returns (result: Result<Pipeline>)
      modifies backend
      ensures (backend.View(), result) == Operate(old(backend.View()), project, Verb.Release, id, now)
    {
      result := ValidateGate(id, ReleaseGate);
      if result.Ok? {
        var p := result.value;
        if p.milestone.None? {
          return Err(Invalid);
        }
        var error := backend.SetTicketStatus(p.milestone.value, Finished, now);
        if error.Some? {
          return Err(error.value);
        }
        result := Save(p.(gate := NoGate));
      }
    }

    method Promote(id: string, now: int) returns (result: Result<Pipeline>)
      modifies backend
      ensures (backend.View(), result) == Operate(old(backend.View()), project, Verb.Promote, id, now)
    {
      result := ValidateGate(id, RolloutGate);
      if result.Ok? {
        result := Save(result.value.(gate := NoGate));
      }
    }

    method Pause(id: string, now: int) returns (result: Result<Pipeline>)
      modifies backend
      ensures (backend.View(), result) == Operate(old(backend.View()), project, Verb.Pause, id, now)
    {
      result := Owned(backend.View(), project, id);
      if result.Ok? {
        var p := result.value;
        if p.state.Terminal() || p.state.Paused? {
          return Err(Conflict);
        }
        p := p.(resumeState := Some(p.state));
        p := p.(state := Paused);
        result := Save(p);
      }
    }

    method Resume(id: string, now: int) returns (result: Result<Pipeline>)
      modifies backend
      ensures (backend.View(), result) == Operate(old(backend.View()), project, Verb.Resume, id, now)
    {
      result := Owned(backend.View(), project, id);
      if result.Ok? {
        var p := result.value;
        if !p.state.Paused? {
          return Err(Conflict);
        }
        p := p.(state := HeldPhase(p.resumeState));
        p := p.(resumeState := None);
        result := Save(p);
      }
    }

    method Retry(id: string, now: int) returns (result: Result<Pipeline>)
      modifies backend
      ensures (backend.View(), result) == Operate(old(backend.View()), project, Verb.Retry, id, now)
    {
      result := Owned(backend.View(), project, id);
      if result.Ok? {
        var p := result.value;
        if !p.state.Failed? {
          return Err(Conflict);
        }
        p := p.(state := HeldPhase(p.resumeState));
        p := p.(resumeState := None);
        p := p.(error := "");
        result := Save(p);
      }
    }

    method Cancel(id: string, now: int) returns (result: Result<Pipeline>)
      modifies backend
      ensures (backend.View(), result) == Operate(old(backend.View()), project, Verb.Cancel, id, now)
    {
      result := Owned(backend.View(), project, id);
      if result.Ok? {
        var p := result.value;
        if p.state.Terminal() {
          return Err(Conflict);
        }
        p := p.(state := Cancelled);
        p := p.(gate := NoGate);
        p := p.(resumeState := None);
        result := Save(p);
      }
    }

    // The accepting command: validate, re-record the review, then clear the gate.
    method ApprovePipeline(id: string, now: int) returns (result: Result<Pipeline>)
      modifies backend
      ensures (backend.View(), result) == Operate(old(backend.View()), project, Verb.AcceptDesign, id, now)
    {
      result := ValidateGate(id, DesignRework);
      if result.Ok? {
        var p := result.value;
        if p.session != "" {
          var record := FindSession(backend.ev.sessions, p.session);
          if record.None? {
            return Err(NotFound);
          }
          var _ := ReviewGate.ApplyReviewGate(backend, record.value, APPROVE, now);
          var approved := record.value.(verdict := APPROVE, blocked := []);
          backend.ev := backend.ev.(sessions := WriteSession(backend.ev.sessions, approved));
        }
        result := Approve(id, now);
      }
    }
  }

  /* Everything the controller does is a run of the transition system. */

  lemma AccountsVerb(sys: System, crew: Crew, d: Durable, verb: Verb, id: string, now: int)
    ensures Accounts(sys, crew, d, [Act(verb, id, now)], Operate(d, sys.project, verb, id, now).0)
  {
    AccountsLeft(sys, crew, d, Act(verb, id, now), Operate(d, sys.project, verb, id, now).0);
  }

  // A capture queued by the hook is the enqueue of the transition system.
  lemma AccountsEnqueue(sys: System, crew: Crew, d: Durable, id: string, capture: TicketId, now: int)
    requires NewPipeline(id, sys.project, capture, now).Valid()
    requires id !in d.pipelines && !CaptureTaken(d.pipelines, sys.project, capture)
    ensures
      var p := NewPipeline(id, sys.project, capture, now);
      Accounts(sys, crew, d, [Action.Enqueue(id, capture, now)], d.(pipelines := d.pipelines[id := p]))
  {
    var p := NewPipeline(id, sys.project, capture, now);
    AccountsLeft(sys, crew, d, Action.Enqueue(id, capture, now), d.(pipelines := d.pipelines[id := p]));
  }

  // A pipeline that is done after any call of the controller has earned it: on the
  // history so far with the call's own run behind it, it left grooming, review,
  // building, QA and rollout in that order, each on its evidence.
  lemma DoneIsEarnedThroughout(sys: System, crew: Crew, start: World, history: seq<Action>, before: Durable,
                               run: seq<Action>, after: Durable, id: string)
    returns (groom: nat, review: nat, build: nat, qa: nat, rollout: nat)
    requires crew.IsInstalled() && Initial(start) && Installed(sys, start, history)
    requires DoAll(sys, start, history) == World(before, Idle) && Accounts(sys, crew, before, run, after)
    requires id in after.pipelines && after.pipelines[id].state.Done?
    ensures groom < review < build < qa < rollout < |history + run|
    ensures Leaves(sys, start, history + run, groom, id, Grooming)
    ensures Leaves(sys, start, history + run, review, id, Review)
    ensures Leaves(sys, start, history + run, build, id, Building)
    ensures Leaves(sys, start, history + run, qa, id, Qa)
    ensures Leaves(sys, start, history + run, rollout, id, Rollout)
  {
    hide Leaves, InstalledStages, Crew.IsInstalled;
    DoAllConcat(sys, start, history, run);
    InstalledConcat(sys, start, history, run);
    groom, review, build, qa, rollout := DoneIsEarned(sys, start, history + run, |history + run|, id);
  }

  // The state of the record a drive goes on with is one phase further.
  lemma CloserToDone(d: Durable, local: Pipeline, outcome: Outcome)
    requires StageStep(d, local, outcome).worker.Driving? && local.state in IN_FLIGHT
    ensures PhaseRank(StageStep(d, local, outcome).worker.local.state) > PhaseRank(local.state)
  {
  }

  // An error in the merge loop is final: a longer prefix ends the same way.
  lemma {:induction false} MergePrefix(ev: Evidence, produced: seq<TicketId>, n: nat, now: int)
    requires n <= |produced|
    ensures MergeTasks(ev, produced[..n], now).1.Some? ==>
              MergeTasks(ev, produced, now) == MergeTasks(ev, produced[..n], now)
    decreases |produced|
  {
    if n == |produced| {
      assert produced[..n] == produced;
    } else {
      var m := |produced| - 1;
      assert produced[..m][..n] == produced[..n];
      MergePrefix(ev, produced[..m], n, now);
    }
  }
}
