/**
 The factory pipeline record, its phases and gates, and the store contract the
 controller relies on (create, update, claim).
 */
module Pipelines {
  import opened Ordering
  import opened Tickets

  datatype State =
    | Queued | Grooming | Review | Building | Qa | Rollout
    | Done | Cancelled | Failed | Paused
  {
    predicate Terminal() { Done? || Cancelled? }

    predicate InFlight() { Grooming? || Review? || Building? || Qa? || Rollout? }
  }

  datatype Gate = NoGate | GroomQuestions | DesignRework | MergeApproval | ReleaseGate | RolloutGate {
    // The groom questions are advisory; every other gate holds its phase.
    predicate Blocking() { !NoGate? && !GroomQuestions? }
  }

  datatype Pipeline = Pipeline(
    id: string, project: string, capture: TicketId, milestone: Option<TicketId>,
    state: State, gate: Gate, session: string, runId: string,
    produced: seq<TicketId>, error: string, attempts: nat,
    resumeState: Option<State>, createdAt: int)
  {
    predicate Valid() {
      && id != "" && project != "" && capture != ""
      && (resumeState.Some? ==> !resumeState.value.Terminal())
    }
  }

  function NewPipeline(id: string, project: string, capture: TicketId, now: int): Pipeline {
    Pipeline(id, project, capture, None, Queued, NoGate, "", "", [], "", 0, None, now)
  }

  function NextState(state: State): State {
    match state
    case Queued => Grooming
    case Grooming => Review
    case Review => Building
    case Building => Qa
    case Qa => Rollout
    case Rollout => Done
    case _ => state
  }

  // The phase order, as a relation.
  predicate Follows(phase: State, next: State) {
    || (phase.Grooming? && next.Review?) || (phase.Review? && next.Building?) || (phase.Building? && next.Qa?)
    || (phase.Qa? && next.Rollout?) || (phase.Rollout? && next.Done?)
  }

  // The phase a parked pipeline returns to.
  function HeldPhase(resume: Option<State>): State {
    if resume.Some? && !resume.value.Terminal() then resume.value else Queued
  }

  function PhaseRank(state: State): nat {
    match state
    case Queued => 0
    case Grooming => 1
    case Review => 2
    case Building => 3
    case Qa => 4
    case Rollout => 5
    case Done => 6
    case Cancelled => 7
    case Failed => 0
    case Paused => 0
  }

  // The phase a pipeline is in, or holds while it is parked.
  function Held(p: Pipeline): State {
    if p.state.Paused? || p.state.Failed? then HeldPhase(p.resumeState) else p.state
  }

  function Rank(p: Pipeline): nat {
    PhaseRank(Held(p))
  }

  /* The store. */

  datatype Durable = Durable(pipelines: map<string, Pipeline>, ev: Evidence)

  predicate CaptureTaken(pipelines: map<string, Pipeline>, project: string, capture: TicketId) {
    exists id | id in pipelines :: pipelines[id].project == project && pipelines[id].capture == capture
  }

  function Create(d: Durable, p: Pipeline): Result<Durable> {
    if !p.Valid() then Err(Invalid)
    else if p.id in d.pipelines || CaptureTaken(d.pipelines, p.project, p.capture) then Err(AlreadyExists)
    else Ok(d.(pipelines := d.pipelines[p.id := p]))
  }

  function Update(d: Durable, p: Pipeline): Result<Durable> {
    if !p.Valid() then Err(Invalid)
    else if p.id !in d.pipelines then Err(NotFound)
    else if d.pipelines[p.id].state.Terminal() then Err(Conflict)
    else if d.pipelines[p.id].project != p.project || d.pipelines[p.id].capture != p.capture then Err(Conflict)
    else Ok(d.(pipelines := d.pipelines[p.id := p]))
  }

  // Re-owning: a queued pipeline starts, any other non-terminal one is unchanged.
  function ClaimById(d: Durable, project: string, id: string): Result<Pipeline> {
    if id !in d.pipelines || d.pipelines[id].project != project || d.pipelines[id].state.Terminal() then Err(NotFound)
    else if d.pipelines[id].state.Queued? then Ok(d.pipelines[id].(state := Grooming))
    else Ok(d.pipelines[id])
  }

  predicate Older(a: Pipeline, b: Pipeline) {
    a.createdAt < b.createdAt || (a.createdAt == b.createdAt && StrLess(a.id, b.id))
  }

  predicate IsQueued(pipelines: map<string, Pipeline>, project: string, id: string) {
    id in pipelines && pipelines[id].project == project && pipelines[id].state.Queued?
  }

  predicate IsOldestQueued(pipelines: map<string, Pipeline>, project: string, id: string) {
    && IsQueued(pipelines, project, id)
    && forall other | other in pipelines ::
         IsQueued(pipelines, project, other) ==> !Older(pipelines[other], pipelines[id])
  }

  lemma OlderTransitive(a: Pipeline, b: Pipeline, c: Pipeline)
    requires !Older(b, a) && !Older(c, b)
    ensures !Older(c, a)
  {
    StrLessStrictTotal();
    TotalIsWeak(StrLess);
    assert !StrLess(c.id, b.id) && !StrLess(b.id, a.id) ==> !StrLess(c.id, a.id);
    StrLessTrichotomy(b.id, a.id);
  }

  lemma NotBothOlder(a: Pipeline, b: Pipeline)
    ensures !(Older(a, b) && Older(b, a))
  {
    StrLessTrichotomy(a.id, b.id);
  }

  function OlderIn(pipelines: map<string, Pipeline>): (string, string) -> bool {
    (a, b) => a in pipelines && (b in pipelines ==> Older(pipelines[a], pipelines[b]))
  }

  lemma OlderInIsWeak(pipelines: map<string, Pipeline>)
    ensures StrictWeak(OlderIn(pipelines))
  {
    var less := OlderIn(pipelines);
    forall a: string, b: string
      ensures !(less(a, b) && less(b, a))
    {
      if a in pipelines && b in pipelines {
        NotBothOlder(pipelines[a], pipelines[b]);
      }
    }
    forall a: string, b: string, c: string | !less(a, b) && !less(b, c)
      ensures !less(a, c)
    {
      if a in pipelines && b in pipelines && c in pipelines {
        OlderTransitive(pipelines[c], pipelines[b], pipelines[a]);
      }
    }
    forall a: string, b: string, c: string | less(a, b) && less(b, c)
      ensures less(a, c)
    {
      if c in pipelines && StrLess(pipelines[a].id, pipelines[b].id) && StrLess(pipelines[b].id, pipelines[c].id) {
        StrLessTransitive(pipelines[a].id, pipelines[b].id, pipelines[c].id);
      }
    }
  }

  // What a listing asks for; a part left out matches every pipeline.
  datatype Filter = Filter(project: string, capture: Option<TicketId>, state: Option<State>) {
    predicate Matches(p: Pipeline) {
      && p.project == project
      && (capture.Some? ==> p.capture == capture.value)
      && (state.Some? ==> p.state == state.value)
    }
  }

  // A store listing: every matching pipeline once, the oldest first.
  ghost predicate IsListing(pipelines: map<string, Pipeline>, filter: Filter, listing: seq<string>) {
    && Distinct(listing) && Sorted(OlderIn(pipelines), listing)
    && forall id :: id in listing <==> id in pipelines && filter.Matches(pipelines[id])
  }

  // The creation times of a listing ascend, and equal ones are in the order of the ids.
  lemma ListedByAge(pipelines: map<string, Pipeline>, filter: Filter, listing: seq<string>)
    requires forall id :: id in pipelines ==> pipelines[id].id == id
    requires IsListing(pipelines, filter, listing)
    ensures forall i, j :: 0 <= i < j < |listing| ==>
              && listing[i] in pipelines && listing[j] in pipelines
              && var p, q := pipelines[listing[i]], pipelines[listing[j]];
                 p.createdAt < q.createdAt || (p.createdAt == q.createdAt && StrLess(p.id, q.id))
  {
    hide Filter.Matches;
    forall i, j | 0 <= i < j < |listing|
      ensures listing[i] in pipelines && listing[j] in pipelines
      ensures var p, q := pipelines[listing[i]], pipelines[listing[j]];
              p.createdAt < q.createdAt || (p.createdAt == q.createdAt && StrLess(p.id, q.id))
    {
      assert listing[i] in listing && listing[j] in listing;
      assert !OlderIn(pipelines)(listing[j], listing[i]) && listing[i] != listing[j];
      var p, q := pipelines[listing[i]], pipelines[listing[j]];
      assert !Older(q, p) && p.id != q.id;
      StrLessTrichotomy(p.id, q.id);
    }
  }

  // Of the queued pipelines of a project the oldest by creation time, then by id.
  lemma OldestByAge(pipelines: map<string, Pipeline>, project: string, id: string)
    requires forall i :: i in pipelines ==> pipelines[i].id == i
    ensures IsOldestQueued(pipelines, project, id) <==>
            && id in pipelines && pipelines[id].project == project && pipelines[id].state.Queued?
            && forall other :: other in pipelines && pipelines[other].project == project
                               && pipelines[other].state.Queued? && other != id ==>
                 pipelines[id].createdAt < pipelines[other].createdAt
                 || (pipelines[id].createdAt == pipelines[other].createdAt && StrLess(id, other))
  {
    if IsOldestQueued(pipelines, project, id) {
      forall other | IsQueued(pipelines, project, other) && other != id
        ensures pipelines[id].createdAt < pipelines[other].createdAt
                || (pipelines[id].createdAt == pipelines[other].createdAt && StrLess(id, other))
      {
        StrLessTrichotomy(id, other);
      }
    }
    forall other
      ensures !(StrLess(id, other) && StrLess(other, id))
    {
      StrLessTrichotomy(id, other);
    }
  }

  predicate SameOwner(p: Pipeline, q: Pipeline) {
    p.project == q.project && p.capture == q.capture
  }

  // No capture has two pipelines in one project.
  ghost predicate OnePerCapture(pipelines: map<string, Pipeline>) {
    forall a, b :: a in pipelines && b in pipelines && SameOwner(pipelines[a], pipelines[b]) ==> a == b
  }
}
