/**
 No work is owned twice: one pipeline per capture, one live agent run per
 pipeline, one groom manifest per capture, across any crashes.
 */
module FactoryOwnership {
  import opened Tickets
  import opened Pipelines
  import opened Stages
  import opened Factory
  import opened FactoryRuns
  import ReviewGate

  /* Identity: one pipeline per capture. */

  ghost predicate Identified(sys: System, w: World) {
    && Keyed(sys, w)
    && (forall id :: id in w.d.pipelines ==> w.d.pipelines[id].Valid())
    && (forall id, other :: id in w.d.pipelines && other in w.d.pipelines && id != other ==>
                              !SameOwner(w.d.pipelines[id], w.d.pipelines[other]))
    && (w.worker.Driving? ==>
          && w.worker.local.Valid()
          && SameOwner(w.worker.local, w.d.pipelines[w.worker.local.id]))
  }

  lemma RecordStepIdentity(sys: System, w: World, a: Action, id: string, q: Pipeline)
    requires RecordStep(sys, w, a, id, q) && Identified(sys, w) && Parked(w) && sys.stages <= IN_FLIGHT
    ensures id in w.d.pipelines ==> SameOwner(q, w.d.pipelines[id]) && q.Valid()
    ensures id !in w.d.pipelines ==> a.Enqueue? && q == NewPipeline(id, sys.project, a.capture, a.now)
  {
  }

  lemma EnqueueIsFresh(sys: System, w: World, a: Action, id: string)
    requires Identified(sys, w) && id in Do(sys, w, a).d.pipelines && id !in w.d.pipelines
    ensures a.Enqueue? && Do(sys, w, a).d.pipelines == w.d.pipelines[id := Do(sys, w, a).d.pipelines[id]]
    ensures Do(sys, w, a).d.pipelines[id].Valid()
    ensures !CaptureTaken(w.d.pipelines, sys.project, a.capture)
    ensures Do(sys, w, a).d.pipelines[id] == NewPipeline(id, sys.project, a.capture, a.now)
  {
    StepShape(sys, w, a);
  }

  lemma IdentifiedStep(sys: System, w: World, a: Action)
    requires Identified(sys, w) && Parked(w) && sys.stages <= IN_FLIGHT
    ensures Identified(sys, Do(sys, w, a))
  {
    var next := Do(sys, w, a);
    StepShape(sys, w, a);
    forall id | id in next.d.pipelines
      ensures next.d.pipelines[id].Valid()
      ensures id in w.d.pipelines ==> SameOwner(next.d.pipelines[id], w.d.pipelines[id])
    {
      RecordStepIdentity(sys, w, a, id, next.d.pipelines[id]);
      if id !in w.d.pipelines {
        EnqueueIsFresh(sys, w, a, id);
      }
    }
    forall id, other | id in next.d.pipelines && other in next.d.pipelines && id != other
      ensures !SameOwner(next.d.pipelines[id], next.d.pipelines[other])
    {
      if id !in w.d.pipelines {
        EnqueueIsFresh(sys, w, a, id);
      } else if other !in w.d.pipelines {
        EnqueueIsFresh(sys, w, a, other);
      }
    }
    if next.worker.Driving? {
      WorkerShape(sys, w, a);
    }
  }

  lemma {:induction false} IdentifiedAlways(sys: System, start: World, run: seq<Action>, n: nat)
    requires Initial(start) && sys.stages <= IN_FLIGHT && n <= |run|
    ensures Identified(sys, At(sys, start, run, n)) && Parked(At(sys, start, run, n))
  {
    if n > 0 {
      IdentifiedAlways(sys, start, run, n - 1);
      IdentifiedStep(sys, At(sys, start, run, n - 1), run[n - 1]);
      ParkedStep(sys, At(sys, start, run, n - 1), run[n - 1]);
    }
  }

  // Any interleaving of enqueues, with anything else, leaves one pipeline per capture.
  lemma OnePipelinePerCapture(sys: System, start: World, run: seq<Action>, n: nat, id: string, other: string)
    requires Initial(start) && sys.stages <= IN_FLIGHT && n <= |run|
    requires id in At(sys, start, run, n).d.pipelines && other in At(sys, start, run, n).d.pipelines
    requires SameOwner(At(sys, start, run, n).d.pipelines[id], At(sys, start, run, n).d.pipelines[other])
    ensures id == other
  {
    IdentifiedAlways(sys, start, run, n);
  }

  /* One live run per pipeline, for any stage map. */

  function LiveFor(ev: Evidence, id: string): set<string> {
    set r | r in ev.runs && ev.runs[r].live && ev.runs[r].pipeline == id
  }

  function RunNamed(runId: string): set<string> {
    if runId == "" then {} else {runId}
  }

  function HandedOff(ret: StageReturn): set<string> {
    if ret.Returned? && !ret.result.done then RunNamed(ret.result.runId) else {}
  }

  // Dead runs stay dead, and a stage may start one run, the one its hand-off names;
  // a crash does not fall between a hand-off and its save. Runs that were live
  // before a stage may live on beside it.
  ghost predicate Disciplined(sys: System, w: World, a: Action) {
    match a
    case RunStage(outcome) =>
      Enabled(sys, w, a) ==>
        && (forall id :: id != w.worker.local.id ==> LiveFor(outcome.ev, id) <= LiveFor(w.d.ev, id))
        && LiveFor(outcome.ev, w.worker.local.id) <= LiveFor(w.d.ev, w.worker.local.id) + HandedOff(outcome.ret)
    case Outside(ev) => forall id :: LiveFor(ev, id) <= LiveFor(w.d.ev, id)
    case _ => true
  }

  ghost predicate MustBeDead(p: Pipeline) {
    || p.state.Queued? || p.state.Failed?
    || (p.state.Paused? && (p.resumeState.None? || p.resumeState.value.Queued? || p.resumeState.value.Failed?))
  }

  // What a record says about the live runs of its pipeline.
  ghost predicate OwnsRuns(p: Pipeline, live: set<string>) {
    && (p.state.Terminal() ==> |live| <= 1)
    && (!p.state.Terminal() ==> live <= RunNamed(p.runId))
    && (MustBeDead(p) ==> live == {})
  }

  ghost predicate RunsOwned(w: World) {
    && (forall id :: id !in w.d.pipelines ==> LiveFor(w.d.ev, id) == {})
    && (forall id :: id in w.d.pipelines ==> OwnsRuns(w.d.pipelines[id], LiveFor(w.d.ev, id)))
    && (w.worker.Driving? ==> LiveFor(w.d.ev, w.worker.local.id) == {})
  }

  lemma VerbKeepsRuns(d: Durable, project: string, verb: Verb, id: string, now: int)
    ensures Operate(d, project, verb, id, now).0.ev.runs == d.ev.runs
  {
    match verb {
      case Merge(faultAt) =>
        if AtGate(d, project, id, MergeApproval).Ok? {
          var p := d.pipelines[id];
          MergeKeepsRuns(d.ev, if faultAt < |p.produced| then p.produced[..faultAt] else p.produced, now);
        }
      case AcceptDesign =>
        if AtGate(d, project, id, DesignRework).Ok? && FindSession(d.ev.sessions, d.pipelines[id].session).Some? {
          ReviewGate.ReleaseTickets(d.ev, FindSession(d.ev.sessions, d.pipelines[id].session).value.blocked, now);
        }
      case _ =>
    }
  }

  lemma {:induction false} MergeKeepsRuns(ev: Evidence, produced: seq<TicketId>, now: int)
    ensures
      var merged := MergeTasks(ev, produced, now).0;
      merged.runs == ev.runs && merged.sessions == ev.sessions
  {
    if produced != [] {
      MergeKeepsRuns(ev, produced[..|produced| - 1], now);
    }
  }

  lemma SmallLive(small: set<string>, runId: string)
    requires small <= RunNamed(runId)
    ensures |small| <= 1
  {
    if small != {} {
      var r :| r in small;
      assert small == {r};
    }
  }

  lemma SubsetSmall(small: set<string>, big: set<string>)
    requires small <= big && |big| <= 1
    ensures |small| <= 1
  {
    if small != {} {
      var r :| r in small;
      assert |big - {r}| == |big| - 1;
      assert small == {r};
    }
  }

  // The save of a driven copy is refused only by a terminal record.
  lemma SaveLands(sys: System, w: World, outcome: Outcome)
    requires Identified(sys, w) && Parked(w) && sys.stages <= IN_FLIGHT
    requires Enabled(sys, w, RunStage(outcome)) && !outcome.ret.Stopped?
    requires !w.d.pipelines[w.worker.local.id].state.Terminal()
    ensures
      var q := Settle(w.worker.local, outcome.ret);
      Do(sys, w, RunStage(outcome)).d == Durable(w.d.pipelines[q.id := q], outcome.ev)
  {
  }

  // Fewer live runs are owned just as well.
  lemma OwnsFewer(p: Pipeline, live: set<string>, fewer: set<string>)
    requires OwnsRuns(p, live) && fewer <= live
    ensures OwnsRuns(p, fewer)
  {
    if p.state.Terminal() {
      SubsetSmall(fewer, live);
    }
  }

  lemma SettleOwns(p: Pipeline, ret: StageReturn, live: set<string>)
    requires p.state.InFlight() && p.resumeState.None? && !ret.Stopped?
    requires live <= HandedOff(ret)
    ensures OwnsRuns(Settle(p, ret), live)
  {
    if ret.Returned? && !ret.result.done {
      SmallLive(live, ret.result.runId);
    }
  }

  // The driven pipeline's own record after its stage.
  lemma DrivenOwns(sys: System, w: World, outcome: Outcome)
    requires Identified(sys, w) && Parked(w) && sys.stages <= IN_FLIGHT && RunsOwned(w)
    requires Enabled(sys, w, RunStage(outcome)) && Disciplined(sys, w, RunStage(outcome))
    ensures
      var next := Do(sys, w, RunStage(outcome)).d;
      var id := w.worker.local.id;
      && id in next.pipelines && OwnsRuns(next.pipelines[id], LiveFor(outcome.ev, id))
      && next == Durable(w.d.pipelines[id := next.pipelines[id]], outcome.ev)
  {
    var local := w.worker.local;
    var live := LiveFor(outcome.ev, local.id);
    var stored := w.d.pipelines[local.id];
    assert w.d.pipelines == w.d.pipelines[local.id := stored];
    assert LiveFor(w.d.ev, local.id) == {} && live <= HandedOff(outcome.ret);
    if outcome.ret.Stopped? {
      OwnsFewer(stored, LiveFor(w.d.ev, local.id), live);
    } else if stored.state.Terminal() {
      if outcome.ret.Returned? && !outcome.ret.result.done {
        SmallLive(live, outcome.ret.result.runId);
      }
    } else {
      SaveLands(sys, w, outcome);
      SettleOwns(local, outcome.ret, live);
    }
  }

  lemma StageRuns(sys: System, w: World, outcome: Outcome)
    requires Identified(sys, w) && Parked(w) && sys.stages <= IN_FLIGHT && RunsOwned(w)
    requires Enabled(sys, w, RunStage(outcome)) && Disciplined(sys, w, RunStage(outcome))
    ensures RunsOwned(Do(sys, w, RunStage(outcome)))
  {
    var next := Do(sys, w, RunStage(outcome));
    var local := w.worker.local;
    DrivenOwns(sys, w, outcome);
    forall id | id in next.d.pipelines && id != local.id
      ensures OwnsRuns(next.d.pipelines[id], LiveFor(next.d.ev, id))
    {
      OwnsFewer(w.d.pipelines[id], LiveFor(w.d.ev, id), LiveFor(outcome.ev, id));
    }
    if next.worker.Driving? {
      assert Continues(local, outcome.ret) && next.worker.local.id == local.id;
    }
  }

  predicate Quiet(a: Action) {
    a.Act? || a.Enqueue? || a.ClaimQueued? || a.Reown? || a.Leave?
  }

  lemma QuietRecordOwns(sys: System, w: World, a: Action, id: string, q: Pipeline)
    requires RecordStep(sys, w, a, id, q) && Quiet(a) && Parked(w) && RunsOwned(w)
    ensures OwnsRuns(q, LiveFor(w.d.ev, id))
  {
    if id in w.d.pipelines && !w.d.pipelines[id].state.Terminal() {
      SmallLive(LiveFor(w.d.ev, id), w.d.pipelines[id].runId);
    }
  }

  lemma QuietEvidence(sys: System, w: World, a: Action)
    requires Quiet(a)
    ensures Do(sys, w, a).d.ev.runs == w.d.ev.runs
  {
    if a.Act? {
      VerbKeepsRuns(w.d, sys.project, a.verb, a.id, a.now);
    }
  }

  lemma QuietRuns(sys: System, w: World, a: Action)
    requires Identified(sys, w) && Parked(w) && sys.stages <= IN_FLIGHT && RunsOwned(w) && Quiet(a)
    ensures RunsOwned(Do(sys, w, a))
  {
    var next := Do(sys, w, a);
    StepShape(sys, w, a);
    QuietEvidence(sys, w, a);
    forall id
      ensures LiveFor(next.d.ev, id) == LiveFor(w.d.ev, id)
    {
    }
    forall id | id in next.d.pipelines
      ensures OwnsRuns(next.d.pipelines[id], LiveFor(next.d.ev, id))
    {
      QuietRecordOwns(sys, w, a, id, next.d.pipelines[id]);
    }
    if next.worker.Driving? {
      WorkerShape(sys, w, a);
      if w.worker.Idle? {
        ReownedIsDead(w, next.worker.local);
      }
    }
  }

  lemma ReownedIsDead(w: World, local: Pipeline)
    requires RunsOwned(w) && local.id in w.d.pipelines && !w.d.pipelines[local.id].state.Terminal()
    requires w.d.pipelines[local.id].state.Queued? || local == w.d.pipelines[local.id]
    requires local.runId != "" && !w.d.pipelines[local.id].state.Queued? ==> !LiveRun(w.d.ev, local.runId)
    ensures LiveFor(w.d.ev, local.id) == {}
  {
  }

  lemma OutsideRuns(sys: System, w: World, ev: Evidence)
    requires RunsOwned(w) && Disciplined(sys, w, Outside(ev))
    ensures RunsOwned(Do(sys, w, Outside(ev)))
  {
    forall id | id in w.d.pipelines
      ensures OwnsRuns(w.d.pipelines[id], LiveFor(ev, id))
    {
      OwnsFewer(w.d.pipelines[id], LiveFor(w.d.ev, id), LiveFor(ev, id));
    }
  }

  lemma RunsStep(sys: System, w: World, a: Action)
    requires Identified(sys, w) && Parked(w) && sys.stages <= IN_FLIGHT && RunsOwned(w) && Disciplined(sys, w, a)
    ensures RunsOwned(Do(sys, w, a))
  {
    match a {
      case RunStage(outcome) =>
        if Enabled(sys, w, a) {
          StageRuns(sys, w, outcome);
        }
      case Outside(ev) => OutsideRuns(sys, w, ev);
      case _ => QuietRuns(sys, w, a);
    }
  }

  lemma AtMostOne(w: World, id: string)
    requires RunsOwned(w)
    ensures |LiveFor(w.d.ev, id)| <= 1
  {
    if id in w.d.pipelines && !w.d.pipelines[id].state.Terminal() {
      SmallLive(LiveFor(w.d.ev, id), w.d.pipelines[id].runId);
    }
  }

  ghost predicate DisciplinedRun(sys: System, start: World, run: seq<Action>) {
    && (forall id :: LiveFor(start.d.ev, id) == {})
    && (forall k :: 0 <= k < |run| ==> Disciplined(sys, At(sys, start, run, k), run[k]))
  }

  lemma {:induction false} RunsOwnedAlways(sys: System, start: World, run: seq<Action>, n: nat)
    requires Initial(start) && sys.stages <= IN_FLIGHT && n <= |run| && DisciplinedRun(sys, start, run)
    ensures RunsOwned(At(sys, start, run, n))
  {
    hide Do, RunsOwned, Disciplined, DisciplinedRun, Identified, Parked, Initial;
    if n == 0 {
      NothingOwned(sys, start, run);
      return;
    }
    RunsOwnedAlways(sys, start, run, n - 1);
    IdentifiedAlways(sys, start, run, n - 1);
    DisciplinedAt(sys, start, run, n - 1);
    RunsStep(sys, At(sys, start, run, n - 1), run[n - 1]);
  }

  lemma NothingOwned(sys: System, start: World, run: seq<Action>)
    requires Initial(start) && DisciplinedRun(sys, start, run)
    ensures RunsOwned(start)
  {
  }

  lemma DisciplinedAt(sys: System, start: World, run: seq<Action>, k: nat)
    requires k < |run| && DisciplinedRun(sys, start, run)
    ensures Disciplined(sys, At(sys, start, run, k), run[k])
  {
    hide Do, Disciplined;
  }

  // In no reachable state does a pipeline have two live external runs: not by
  // resuming, retrying, claiming again, or across restarts.
  lemma OneLiveRun(sys: System, start: World, run: seq<Action>, n: nat, id: string)
    requires Initial(start) && sys.stages <= IN_FLIGHT && n <= |run| && DisciplinedRun(sys, start, run)
    ensures |LiveFor(At(sys, start, run, n).d.ev, id)| <= 1
  {
    RunsOwnedAlways(sys, start, run, n);
    AtMostOne(At(sys, start, run, n), id);
  }

  // The check for a live run before driving is what the bound rests on: a disciplined
  // stage that starts beside a live run leaves two.
  lemma DrivingBlindlyDoubles(sys: System, w: World, outcome: Outcome, live: string)
    requires Enabled(sys, w, RunStage(outcome)) && LiveFor(w.d.ev, w.worker.local.id) == {live}
    requires outcome.ret.Returned? && !outcome.ret.result.done
    requires outcome.ret.result.runId != "" && outcome.ret.result.runId !in w.d.ev.runs
    requires outcome.ev.runs == w.d.ev.runs[outcome.ret.result.runId := AgentRun(w.worker.local.id, true)]
    ensures Disciplined(sys, w, RunStage(outcome))
    ensures |LiveFor(Do(sys, w, RunStage(outcome)).d.ev, w.worker.local.id)| == 2
  {
    var id := w.worker.local.id;
    assert live in LiveFor(w.d.ev, id);
    assert LiveFor(outcome.ev, id) == {live, outcome.ret.result.runId};
    assert forall other :: other != id ==> LiveFor(outcome.ev, other) == LiveFor(w.d.ev, other);
  }

  // The supervisor never runs a stage of a pipeline whose external run is live.
  lemma NoStageBesideALiveRun(sys: System, start: World, run: seq<Action>, n: nat)
    requires Initial(start) && sys.stages <= IN_FLIGHT && n < |run| && DisciplinedRun(sys, start, run)
    requires run[n].RunStage? && Enabled(sys, At(sys, start, run, n), run[n])
    ensures LiveFor(At(sys, start, run, n).d.ev, At(sys, start, run, n).worker.local.id) == {}
  {
    RunsOwnedAlways(sys, start, run, n);
  }

  /* One groom manifest per capture. */

  ghost predicate SameManifest(s: Session, t: Session) {
    s.id == t.id && s.scope == t.scope && s.produced == t.produced
  }

  // Manifests are rewritten (reviews), never removed or re-scoped.
  ghost predicate KeepsManifests(before: Evidence, after: Evidence) {
    forall s :: s in before.sessions ==> exists t :: t in after.sessions && SameManifest(s, t)
  }

  ghost predicate ManifestsKept(sys: System, w: World, a: Action) {
    (a.RunStage? ==> KeepsManifests(w.d.ev, a.outcome.ev)) && (a.Outside? ==> KeepsManifests(w.d.ev, a.ev))
  }

  ghost predicate Scoped(ev: Evidence, capture: TicketId) {
    exists s :: s in ev.sessions && capture in s.scope
  }

  lemma {:induction false} WriteKeeps(sessions: seq<Session>, record: Session, found: Session)
    requires FindSession(sessions, record.id) == Some(found) && SameManifest(record, found)
    ensures forall s :: s in sessions ==> exists t :: t in WriteSession(sessions, record) && SameManifest(s, t)
  {
    var written := WriteSession(sessions, record);
    if sessions[0].id == record.id {
      assert written[0] == record;
      forall s | s in sessions
        ensures exists t :: t in written && SameManifest(s, t)
      {
        if s in sessions[1..] {
          assert s in written && SameManifest(s, s);
        } else {
          assert record in written && SameManifest(s, record);
        }
      }
    } else {
      WriteKeeps(sessions[1..], record, found);
      forall s | s in sessions
        ensures exists t :: t in written && SameManifest(s, t)
      {
        if s in sessions[1..] {
          var t :| t in WriteSession(sessions[1..], record) && SameManifest(s, t);
          assert t in written;
        } else {
          assert s in written && SameManifest(s, s);
        }
      }
    }
  }

  lemma ApproveKeepsManifests(ev: Evidence, p: Pipeline, now: int)
    requires ApproveSession(ev, p, now).Ok?
    ensures KeepsManifests(ev, ApproveSession(ev, p, now).value)
  {
    ReflexiveManifests(ev.sessions);
    if p.session != "" {
      var found := FindSession(ev.sessions, p.session);
      ReviewGate.ReleaseTickets(ev, found.value.blocked, now);
      WriteKeeps(ev.sessions, found.value.(verdict := APPROVE, blocked := []), found.value);
    }
  }

  lemma VerbSessions(d: Durable, project: string, verb: Verb, id: string, now: int)
    requires !verb.AcceptDesign?
    ensures Operate(d, project, verb, id, now).0.ev.sessions == d.ev.sessions
  {
    if verb.Merge? && AtGate(d, project, id, MergeApproval).Ok? {
      var p := d.pipelines[id];
      MergeKeepsRuns(d.ev, if verb.faultAt < |p.produced| then p.produced[..verb.faultAt] else p.produced, now);
    }
  }

  lemma AcceptEvidence(d: Durable, project: string, id: string, now: int)
    ensures
      var after := Operate(d, project, AcceptDesign, id, now).0.ev;
      var at := AtGate(d, project, id, DesignRework);
      after ==
        if at.Ok? && ApproveSession(d.ev, at.value, now).Ok? then ApproveSession(d.ev, at.value, now).value
        else d.ev
  {
  }

  lemma UnchangedKeeps(before: Evidence, after: Evidence)
    requires before.sessions == after.sessions
    ensures KeepsManifests(before, after)
  {
    ReflexiveManifests(before.sessions);
  }

  lemma VerbKeepsManifests(d: Durable, project: string, verb: Verb, id: string, now: int)
    ensures KeepsManifests(d.ev, Operate(d, project, verb, id, now).0.ev)
  {
    if !verb.AcceptDesign? {
      VerbSessions(d, project, verb, id, now);
      UnchangedKeeps(d.ev, Operate(d, project, verb, id, now).0.ev);
    } else {
      AcceptEvidence(d, project, id, now);
      var at := AtGate(d, project, id, DesignRework);
      if at.Ok? && ApproveSession(d.ev, at.value, now).Ok? {
        ApproveKeepsManifests(d.ev, at.value, now);
      } else {
        UnchangedKeeps(d.ev, d.ev);
      }
    }
  }

  lemma ReflexiveManifests(sessions: seq<Session>)
    ensures forall s :: s in sessions ==> exists t :: t in sessions && SameManifest(s, t)
  {
    forall s | s in sessions
      ensures exists t :: t in sessions && SameManifest(s, t)
    {
      assert SameManifest(s, s);
    }
  }

  lemma ScopedStep(sys: System, w: World, a: Action, capture: TicketId)
    requires ManifestsKept(sys, w, a) && Scoped(w.d.ev, capture)
    ensures Scoped(Do(sys, w, a).d.ev, capture)
  {
    if a.Act? {
      VerbKeepsManifests(w.d, sys.project, a.verb, a.id, a.now);
    }
    var s :| s in w.d.ev.sessions && capture in s.scope;
    if Do(sys, w, a).d.ev != w.d.ev {
      assert KeepsManifests(w.d.ev, Do(sys, w, a).d.ev);
      var t :| t in Do(sys, w, a).d.ev.sessions && SameManifest(s, t);
    }
  }

  lemma {:induction false} ScopedForever(sys: System, start: World, run: seq<Action>, i: nat, j: nat, capture: TicketId)
    requires i <= j <= |run| && Scoped(At(sys, start, run, i).d.ev, capture)
    requires forall k :: 0 <= k < |run| ==> ManifestsKept(sys, At(sys, start, run, k), run[k])
    ensures Scoped(At(sys, start, run, j).d.ev, capture)
  {
    hide Do, Scoped, ManifestsKept;
    if i < j {
      ScopedForever(sys, start, run, i, j - 1, capture);
      ScopedStep(sys, At(sys, start, run, j - 1), run[j - 1], capture);
    }
  }

  // Step i ran the groom stage for the capture, and its session function wrote
  // the capture's manifest, whether or not the pipeline was saved afterwards.
  ghost predicate WritesManifest(sys: System, start: World, run: seq<Action>, i: nat, capture: TicketId)
    requires i < |run|
  {
    var w := At(sys, start, run, i);
    && run[i].RunStage? && Enabled(sys, w, run[i])
    && w.worker.local.state.Grooming? && w.worker.local.capture == capture
    && (exists fx :: run[i].outcome == GroomRun(w.worker.local, w.d.ev, fx))
    && run[i].outcome.ev != w.d.ev
    && Scoped(At(sys, start, run, i + 1).d.ev, capture)
  }

  // However often the groom stage crashes and runs again, it writes one manifest.
  lemma OneManifestPerCapture(sys: System, start: World, run: seq<Action>, i: nat, j: nat, capture: TicketId)
    requires i < j < |run|
    requires forall k :: 0 <= k < |run| ==> ManifestsKept(sys, At(sys, start, run, k), run[k])
    requires WritesManifest(sys, start, run, i, capture)
    ensures !WritesManifest(sys, start, run, j, capture)
  {
    ScopedForever(sys, start, run, i + 1, j, capture);
    assert CaptureSession(At(sys, start, run, j).d.ev.sessions, capture).Some?;
  }

  // A crash between the manifest and the save: the next start restores the same
  // session and produced ids, and the very record the save would have written,
  // except that the advisory questions gate is lost.
  lemma CrashThenResumeGrooming(sys: System, d: Durable, p: Pipeline, fx: Effect, again: Effect)
    requires sys.stages == IN_FLIGHT && p.Valid() && p.state.Grooming? && !p.gate.Blocking() && p.project == sys.project
    requires p.id in d.pipelines && d.pipelines[p.id] == p
    requires CaptureSession(d.ev.sessions, p.capture).None? && fx.fault.None?
    requires var written := CaptureSession(fx.ev.sessions, p.capture);
             written.Some? && written.value.id == fx.sessionId && written.value.produced == fx.produced
    requires p.runId != "" ==> !LiveRun(fx.ev, p.runId)
    ensures
      var saved := Settle(p, GroomRun(p, d.ev, fx).ret);
      var crashed := Do(sys, World(d, Driving(p)), RunStage(Outcome(fx.ev, Stopped)));
      var restarted := Do(sys, crashed, Reown(p.id));
      var resumed := Do(sys, restarted, RunStage(GroomRun(p, restarted.d.ev, again)));
      && restarted.worker == Driving(p)
      && resumed.d == Durable(d.pipelines[p.id := saved.(gate := NoGate)], fx.ev)
      && (resumed.d.pipelines[p.id] == saved <==> !fx.deferred)
  {
    var crashed := Do(sys, World(d, Driving(p)), RunStage(Outcome(fx.ev, Stopped)));
    assert crashed == World(d.(ev := fx.ev), Idle);
    assert d.pipelines[p.id := p] == d.pipelines;
    var restarted := Do(sys, crashed, Reown(p.id));
    assert restarted == World(d.(ev := fx.ev), Driving(p));
    var written := CaptureSession(fx.ev.sessions, p.capture).value;
    assert GroomRun(p, fx.ev, again)
        == Outcome(fx.ev, Returned(StageResult(true, NoGate, "", written.id, written.produced)));
    var saved := Settle(p, GroomRun(p, d.ev, fx).ret);
    assert Settle(p, GroomRun(p, fx.ev, again).ret) == saved.(gate := NoGate);
  }
}
