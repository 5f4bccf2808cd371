/**
 The store as the controller sees it: one object holding the pipelines and the
 durable evidence, updated in place.
 */
module Store {
  import opened Ordering
  import opened Tickets
  import opened Pipelines
  import QaGate

  class Backend {
    var pipelines: map<string, Pipeline>
    var ev: Evidence

    constructor ()
      ensures View() == Durable(map[], Evidence(map[], [], [], map[]))
    {
      pipelines := map[];
      ev := Evidence(map[], [], [], map[]);
    }

    function View(): Durable
      reads this
    {
      Durable(pipelines, ev)
    }

    // A new pipeline is stored alone, and no capture ever gets a second one.
    method CreatePipeline(p: Pipeline) returns (error: Option<Error>)
      modifies this`pipelines
      ensures !p.Valid() <==> error == Some(Invalid)
      ensures error == Some(AlreadyExists) <==>
                p.Valid() && (p.id in old(pipelines) || CaptureTaken(old(pipelines), p.project, p.capture))
      ensures error.None? || error == Some(Invalid) || error == Some(AlreadyExists)
      ensures pipelines == if error.None? then old(pipelines)[p.id := p] else old(pipelines)
      ensures OnePerCapture(old(pipelines)) ==> OnePerCapture(pipelines)
    {
      if !p.Valid() {
        return Some(Invalid);
      }
      if p.id in pipelines {
        return Some(AlreadyExists);
      }
      var rest := pipelines.Keys;
      while rest != {}
        invariant rest <= pipelines.Keys && pipelines == old(pipelines)
        invariant forall id :: id in pipelines.Keys - rest ==>
                    !(pipelines[id].project == p.project && pipelines[id].capture == p.capture)
        decreases |rest|
      {
        var id :| id in rest;
        if pipelines[id].project == p.project && pipelines[id].capture == p.capture {
          return Some(AlreadyExists);
        }
        rest := rest - {id};
      }
      pipelines := pipelines[p.id := p];
      error := None;
    }

    // A save replaces one record. It never touches a terminal one, moves none to
    // another project or capture, and adds none.
    method UpdatePipeline(p: Pipeline) returns (error: Option<Error>)
      modifies this`pipelines
      ensures error.None? <==>
                && p.Valid() && p.id in old(pipelines) && !old(pipelines)[p.id].state.Terminal()
                && old(pipelines)[p.id].project == p.project && old(pipelines)[p.id].capture == p.capture
      ensures error.Some? ==>
                error.value == if !p.Valid() then Invalid else if p.id !in old(pipelines) then NotFound else Conflict
      ensures pipelines == if error.None? then old(pipelines)[p.id := p] else old(pipelines)
      ensures forall id :: id in old(pipelines) && old(pipelines)[id].state.Terminal() ==>
                             id in pipelines && pipelines[id] == old(pipelines)[id]
      ensures OnePerCapture(old(pipelines)) ==> OnePerCapture(pipelines)
      ensures match Update(old(View()), p)
              case Ok(d) => error.None? && View() == d
              case Err(e) => error == Some(e) && View() == old(View())
    {
      if !p.Valid() {
        return Some(Invalid);
      }
      if p.id !in pipelines {
        return Some(NotFound);
      }
      var current := pipelines[p.id];
      if current.state.Terminal() {
        return Some(Conflict);
      }
      if current.project != p.project || current.capture != p.capture {
        return Some(Conflict);
      }
      pipelines := pipelines[p.id := p];
      error := None;
    }

    // A claim by id succeeds for every unfinished pipeline of the project, again and
    // again; the claimed pipeline is never queued, and otherwise as it was stored.
    method Reclaim(project: string, id: string) returns (claimed: Result<Pipeline>)
      modifies this`pipelines
      ensures claimed.Ok? <==>
                id in old(pipelines) && old(pipelines)[id].project == project && !old(pipelines)[id].state.Terminal()
      ensures claimed.Err? ==> claimed.error == NotFound && pipelines == old(pipelines)
      ensures claimed.Ok? ==>
                && pipelines == old(pipelines)[id := claimed.value]
                && !claimed.value.state.Queued?
                && claimed.value.(state := old(pipelines)[id].state) == old(pipelines)[id]
                && (!old(pipelines)[id].state.Queued? ==> pipelines == old(pipelines))
                && (old(pipelines)[id].state.Queued? ==> claimed.value.state.Grooming?)
    {
      if id !in pipelines {
        return Err(NotFound);
      }
      var p := pipelines[id];
      if p.project != project || p.state.Terminal() {
        return Err(NotFound);
      }
      if p.state.Queued? {
        p := p.(state := Grooming);
        pipelines := pipelines[id := p];
      }
      assert pipelines == old(pipelines)[id := p];
      claimed := Ok(p);
    }

    // The ids of the matching pipelines, the oldest first.
    method ListPipelines(filter: Filter) returns (listing: seq<string>)
      ensures IsListing(pipelines, filter, listing)
    {
      listing := [];
      var rest := set id | id in pipelines && filter.Matches(pipelines[id]);
      ghost var all := rest;
      while rest != {}
        invariant rest <= all && Distinct(listing)
        invariant forall id :: id in listing <==> id in all - rest
        decreases |rest|
      {
        var id :| id in rest;
        assert id !in listing;
        listing := listing + [id];
        rest := rest - {id};
      }
      ghost var unsorted := listing;
      var less := OlderIn(pipelines);
      OlderInIsWeak(pipelines);
      SortBySorted(less, unsorted);
      SortByDistinct(less, unsorted);
      listing := SortBy(less, listing);
      forall id
        ensures id in listing <==> id in all
      {
        SortByMembers(less, unsorted, id);
      }
    }

    // Takes the oldest queued pipeline of the project and moves it to grooming.
    method ClaimQueued(project: string) returns (claimed: Option<Pipeline>, ghost id: string)
      modifies this`pipelines
      ensures claimed.None? ==> pipelines == old(pipelines) && forall other :: !IsQueued(old(pipelines), project, other)
      ensures claimed.Some? ==>
                && IsOldestQueued(old(pipelines), project, id)
                && claimed.value == old(pipelines)[id].(state := Grooming)
                && pipelines == old(pipelines)[id := claimed.value]
    {
      var best: Option<string> := None;
      var rest := pipelines.Keys;
      while rest != {}
        invariant pipelines == old(pipelines)
        invariant rest <= pipelines.Keys
        invariant best.None? ==> forall other :: other in pipelines.Keys - rest ==> !IsQueued(pipelines, project, other)
        invariant best.Some? ==>
            && IsQueued(pipelines, project, best.value)
            && forall other :: other in pipelines.Keys - rest && IsQueued(pipelines, project, other) ==>
                                 !Older(pipelines[other], pipelines[best.value])
        decreases rest
      {
        var candidate :| candidate in rest;
        if IsQueued(pipelines, project, candidate) {
          StrLessTrichotomy(pipelines[candidate].id, pipelines[candidate].id);
          if best.None? {
            best := Some(candidate);
          } else {
            StrLessTrichotomy(pipelines[candidate].id, pipelines[best.value].id);
            if Older(pipelines[candidate], pipelines[best.value]) {
              forall other | other in pipelines.Keys - rest && IsQueued(pipelines, project, other)
                ensures !Older(pipelines[other], pipelines[candidate])
              {
                OlderTransitive(pipelines[candidate], pipelines[best.value], pipelines[other]);
              }
              best := Some(candidate);
            }
          }
        }
        rest := rest - {candidate};
      }
      if best.None? {
        claimed, id := None, "";
      } else {
        id := best.value;
        var taken := pipelines[best.value].(state := Grooming);
        pipelines := pipelines[best.value := taken];
        claimed := Some(taken);
      }
    }

    method SetTicketStatus(id: TicketId, status: Status, now: int) returns (error: Option<Error>)
      modifies this`ev
      ensures match QaGate.SetStatus(old(ev), id, status, now)
              case Ok(next) => error.None? && ev == next
              case Err(e) => error == Some(e) && ev == old(ev)
    {
      var moved := QaGate.SetStatus(ev, id, status, now);
      match moved
      case Ok(next) => ev := next; error := None;
      case Err(e) => error := Some(e);
    }
  }
}
