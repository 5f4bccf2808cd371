/**
 The architecture-review gate: a needs-rework verdict blocks the tasks a session
 produced, an approving one releases exactly the tasks the gate still holds.
 */
module ReviewGate {
  import opened Ordering
  import opened Tickets
  import opened Store

  predicate Buildable(t: Ticket) {
    t.kind.Executable() && (t.status.Todo? || t.status.InProgress?)
  }

  // One produced id under a needs-rework verdict: the evidence after it, and
  // whether the gate reports the id as held.
  function HoldOne(ev: Evidence, id: TicketId, held: seq<TicketId>, now: int): (Evidence, bool) {
    if id !in ev.tickets || !ev.tickets[id].kind.Executable() then (ev, false)
    else if Buildable(ev.tickets[id]) then
      (ev.(tickets := ev.tickets[id := ev.tickets[id].(status := Blocked, updatedAt := now)]), true)
    else (ev, ev.tickets[id].status.Blocked? && id in held)
  }

  function HoldAll(ev: Evidence, produced: seq<TicketId>, held: seq<TicketId>, now: int): (Evidence, seq<TicketId>) {
    if produced == [] then (ev, [])
    else
      var n := |produced| - 1;
      var (before, listed) := HoldAll(ev, produced[..n], held, now);
      var (after, holds) := HoldOne(before, produced[n], held, now);
      (after, if holds then listed + [produced[n]] else listed)
  }

  function ReleaseAll(ev: Evidence, held: seq<TicketId>, now: int): Evidence {
    if held == [] then ev
    else
      var n := |held| - 1;
      var before := ReleaseAll(ev, held[..n], now);
      var id := held[n];
      if id in before.tickets && before.tickets[id].status.Blocked? then
        before.(tickets := before.tickets[id := before.tickets[id].(status := Todo, updatedAt := now)])
      else before
  }

  method ApplyReviewGate(backend: Backend, session: Session, verdict: string, now: int)
    returns (blocked: seq<TicketId>)
    modifies backend`ev
    ensures BlocksBuild(verdict) ==>
              HoldAll(old(backend.ev), session.produced, session.blocked, now) == (backend.ev, blocked)
    ensures !BlocksBuild(verdict) ==> backend.ev == ReleaseAll(old(backend.ev), session.blocked, now) && blocked == []
  {
    blocked := [];
    if BlocksBuild(verdict) {
      for i := 0 to |session.produced|
        invariant HoldAll(old(backend.ev), session.produced[..i], session.blocked, now) == (backend.ev, blocked)
      {
        var id := session.produced[i];
        assert session.produced[..i + 1][..i] == session.produced[..i];
        if id in backend.ev.tickets && backend.ev.tickets[id].kind.Executable() {
          match backend.ev.tickets[id].status {
            case Todo | InProgress =>
              var _ := backend.SetTicketStatus(id, Blocked, now);
              blocked := blocked + [id];
            case Blocked =>
              if id in session.blocked {
                blocked := blocked + [id];
              }
            case _ =>
          }
        }
      }
      assert session.produced[..|session.produced|] == session.produced;
    } else {
      for i := 0 to |session.blocked|
        invariant backend.ev == ReleaseAll(old(backend.ev), session.blocked[..i], now)
      {
        var id := session.blocked[i];
        assert session.blocked[..i + 1][..i] == session.blocked[..i];
        if id in backend.ev.tickets && backend.ev.tickets[id].status.Blocked? {
          var _ := backend.SetTicketStatus(id, Todo, now);
        }
      }
      assert session.blocked[..|session.blocked|] == session.blocked;
    }
  }

  /* What a pass does to every ticket. */

  function HeldTicket(t: Ticket, now: int): Ticket {
    if Buildable(t) then t.(status := Blocked, updatedAt := now) else t
  }

  function ReleasedTicket(t: Ticket, now: int): Ticket {
    if t.status.Blocked? then t.(status := Todo, updatedAt := now) else t
  }

  // A needs-rework pass blocks the buildable produced tasks, and frames all else.
  lemma {:induction false} HoldTickets(ev: Evidence, produced: seq<TicketId>, held: seq<TicketId>, now: int)
    ensures
      var after := HoldAll(ev, produced, held, now).0;
      && after == ev.(tickets := after.tickets)
      && after.tickets.Keys == ev.tickets.Keys
      && forall id :: id in ev.tickets ==>
                        after.tickets[id] == if id in produced then HeldTicket(ev.tickets[id], now) else ev.tickets[id]
  {
    if produced != [] {
      var n := |produced| - 1;
      HoldTickets(ev, produced[..n], held, now);
      assert produced == produced[..n] + [produced[n]];
    }
  }

  // The reported list: produced tasks the pass blocked, or kept blocked since an earlier pass.
  lemma {:induction false} HoldListed(ev: Evidence, produced: seq<TicketId>, held: seq<TicketId>, now: int)
    ensures forall id :: id in HoldAll(ev, produced, held, now).1 <==>
                           && id in produced
                           && id in ev.tickets
                           && (Buildable(ev.tickets[id])
                               || (ev.tickets[id].kind.Executable() && ev.tickets[id].status.Blocked? && id in held))
  {
    if produced != [] {
      var n := |produced| - 1;
      HoldListed(ev, produced[..n], held, now);
      HoldTickets(ev, produced[..n], held, now);
      assert produced == produced[..n] + [produced[n]];
    }
  }

  // An approving pass releases the held tasks that are still blocked, and frames all else.
  lemma {:induction false} ReleaseTickets(ev: Evidence, held: seq<TicketId>, now: int)
    ensures
      var after := ReleaseAll(ev, held, now);
      && after == ev.(tickets := after.tickets)
      && after.tickets.Keys == ev.tickets.Keys
      && forall id :: id in ev.tickets ==>
                        after.tickets[id] == if id in held then ReleasedTicket(ev.tickets[id], now) else ev.tickets[id]
  {
    if held != [] {
      var n := |held| - 1;
      ReleaseTickets(ev, held[..n], now);
      assert held == held[..n] + [held[n]];
    }
  }

  /* Repeated reviews. */

  // One recorded review: the tickets after its gate, and the session as written back.
  function Pass(ev: Evidence, session: Session, verdict: string, now: int): (Evidence, Session) {
    if BlocksBuild(verdict) then
      var (after, listed) := HoldAll(ev, session.produced, session.blocked, now);
      (after, session.(verdict := verdict, blocked := listed))
    else
      (ReleaseAll(ev, session.blocked, now), session.(verdict := verdict, blocked := []))
  }

  // One pass, on the statuses: only needs-rework blocks, and it blocks the produced
  // tasks and milestones that were todo or in progress; any other verdict returns the
  // held tasks that are still blocked to todo.
  lemma PassStatuses(ev: Evidence, session: Session, verdict: string, now: int)
    ensures
      var (after, reviewed) := Pass(ev, session, verdict, now);
      && after == ev.(tickets := after.tickets) && after.tickets.Keys == ev.tickets.Keys
      && (forall id :: id in ev.tickets ==>
            var t := ev.tickets[id];
            after.tickets[id] ==
            if verdict == "needs-rework" then
              if id in session.produced && (t.kind.Task? || t.kind.Milestone?)
                 && (t.status.Todo? || t.status.InProgress?)
              then t.(status := Blocked, updatedAt := now) else t
            else
              if id in session.blocked && t.status.Blocked? then t.(status := Todo, updatedAt := now) else t)
      && reviewed == session.(verdict := verdict, blocked := reviewed.blocked)
      && (verdict != "needs-rework" ==> reviewed.blocked == [])
  {
    HoldTickets(ev, session.produced, session.blocked, now);
    ReleaseTickets(ev, session.blocked, now);
  }

  // After a needs-rework pass no produced task can be picked up for build, and
  // every id the gate reports is a blocked produced task.
  lemma HoldClosesBuild(ev: Evidence, session: Session, now: int)
    ensures
      var (after, held) := Pass(ev, session, NEEDS_REWORK, now);
      && (forall id :: id in session.produced && id in after.tickets ==> !Buildable(after.tickets[id]))
      && (forall id :: id in held.blocked ==>
              id in session.produced && id in after.tickets && after.tickets[id].status.Blocked?)
  {
    HoldTickets(ev, session.produced, session.blocked, now);
    HoldListed(ev, session.produced, session.blocked, now);
  }

  lemma {:induction false} HoldStill(ev: Evidence, produced: seq<TicketId>, held: seq<TicketId>, now: int)
    requires forall id :: id in produced && id in ev.tickets ==> !Buildable(ev.tickets[id])
    ensures HoldAll(ev, produced, held, now).0 == ev
  {
    if produced != [] {
      HoldStill(ev, produced[..|produced| - 1], held, now);
    }
  }

  lemma {:induction false} ListedFromOriginal(
    ev: Evidence, after: Evidence, produced: seq<TicketId>, held: seq<TicketId>,
    full: seq<TicketId>, now: int, later: int)
    requires Distinct(produced)
    requires forall id :: id in produced && id in after.tickets ==> !Buildable(after.tickets[id])
    requires after.tickets.Keys == ev.tickets.Keys
    requires forall id :: id in produced && id in ev.tickets ==> after.tickets[id] == HeldTicket(ev.tickets[id], now)
    requires forall id :: id in produced && id in ev.tickets ==>
                            (id in full <==> Buildable(ev.tickets[id])
                                             || (ev.tickets[id].kind.Executable() && ev.tickets[id].status.Blocked?
                                                 && id in held))
    ensures HoldAll(after, produced, full, later).1 == HoldAll(ev, produced, held, now).1
  {
    if produced != [] {
      var n := |produced| - 1;
      ListedFromOriginal(ev, after, produced[..n], held, full, now, later);
      HoldTickets(ev, produced[..n], held, now);
      HoldStill(after, produced[..n], full, later);
      assert produced[n] in produced && produced[n] !in produced[..n];
    }
  }

  // A second needs-rework pass changes no ticket and reports the same list.
  lemma SecondHoldChangesNothing(ev: Evidence, session: Session, now: int, later: int)
    requires Distinct(session.produced)
    ensures
      var (after, held) := Pass(ev, session, NEEDS_REWORK, now);
      Pass(after, held, NEEDS_REWORK, later) == (after, held)
  {
    var (after, held) := Pass(ev, session, NEEDS_REWORK, now);
    HoldClosesBuild(ev, session, now);
    HoldTickets(ev, session.produced, session.blocked, now);
    HoldListed(ev, session.produced, session.blocked, now);
    HoldStill(after, session.produced, held.blocked, later);
    ListedFromOriginal(ev, after, session.produced, session.blocked, held.blocked, now, later);
  }

  // Rework and then approval, with no writes in between: exactly the tasks the
  // gate held come back as todo; a task someone else blocked stays blocked.
  lemma HoldThenApprove(ev: Evidence, session: Session, verdict: string, now: int, later: int)
    requires !BlocksBuild(verdict)
    ensures
      var (held, reviewed) := Pass(ev, session, NEEDS_REWORK, now);
      var (after, approved) := Pass(held, reviewed, verdict, later);
      && approved.blocked == []
      && after.tickets.Keys == ev.tickets.Keys
      && forall id :: id in ev.tickets ==>
                        var t := ev.tickets[id];
                        after.tickets[id] ==
                        if id in session.produced
                           && (Buildable(t) || (t.kind.Executable() && t.status.Blocked? && id in session.blocked))
                        then t.(status := Todo, updatedAt := later)
                        else t
  {
    var (held, reviewed) := Pass(ev, session, NEEDS_REWORK, now);
    HoldTickets(ev, session.produced, session.blocked, now);
    HoldListed(ev, session.produced, session.blocked, now);
    ReleaseTickets(held, reviewed.blocked, later);
  }

  // A review as it happened: the evidence it found (others may have written
  // since the last one), its verdict and its clock reading.
  datatype Review = Review(found: Evidence, verdict: string, at: int)

  function After(session: Session, reviews: seq<Review>): Session {
    if reviews == [] then session
    else
      var n := |reviews| - 1;
      Pass(reviews[n].found, After(session, reviews[..n]), reviews[n].verdict, reviews[n].at).1
  }

  ghost predicate Claims(review: Review, id: TicketId) {
    BlocksBuild(review.verdict) && id in review.found.tickets && Buildable(review.found.tickets[id])
  }

  ghost predicate StillHeld(reviews: seq<Review>, from: nat, id: TicketId) {
    forall k :: from <= k < |reviews| ==>
                  && BlocksBuild(reviews[k].verdict)
                  && id in reviews[k].found.tickets
                  && reviews[k].found.tickets[id].status.Blocked?
  }

  // Nobody else's block is ever claimed: an id is on the list only if some
  // needs-rework review blocked it itself and every review since found it blocked.
  lemma {:induction false} BlockListIsEarned(session: Session, reviews: seq<Review>, id: TicketId)
    requires session.blocked == []
    requires id in After(session, reviews).blocked
    ensures id in session.produced
    ensures exists i :: 0 <= i < |reviews| && Claims(reviews[i], id) && StillHeld(reviews, i + 1, id)
  {
    var n := |reviews| - 1;
    assert reviews != [];
    var prior := After(session, reviews[..n]);
    var last := reviews[n];
    assert BlocksBuild(last.verdict);
    HoldListed(last.found, prior.produced, prior.blocked, last.at);
    ProducedKept(session, reviews[..n]);
    if Claims(last, id) {
      assert StillHeld(reviews, n + 1, id);
    } else {
      BlockListIsEarned(session, reviews[..n], id);
      var i :| 0 <= i < n && Claims(reviews[..n][i], id) && StillHeld(reviews[..n], i + 1, id);
      assert Claims(reviews[i], id);
      forall k | i + 1 <= k < |reviews|
        ensures BlocksBuild(reviews[k].verdict) && id in reviews[k].found.tickets
                && reviews[k].found.tickets[id].status.Blocked?
      {
        if k < n {
          assert reviews[..n][k] == reviews[k];
        }
      }
      assert StillHeld(reviews, i + 1, id);
    }
  }

  lemma {:induction false} ProducedKept(session: Session, reviews: seq<Review>)
    ensures After(session, reviews).produced == session.produced
  {
    if reviews != [] {
      ProducedKept(session, reviews[..|reviews| - 1]);
    }
  }
}
