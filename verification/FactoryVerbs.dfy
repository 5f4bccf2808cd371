/**
 What the operator verbs do to the evidence, ticket by ticket, and why one is refused.
 */
module FactoryVerbs {
  import opened Tickets
  import opened Pipelines
  import opened Stages
  import opened Factory
  import opened FactoryRuns
  import QaGate
  import ReviewGate
  import Text

  // An answer of nothing but white space is refused, whatever the pipeline.
  lemma BlankAnswerRefused(d: Durable, project: string, id: string, answers: string, now: int)
    ensures Blank(answers) <==> forall i :: 0 <= i < |answers| ==> Text.IsSpace(answers[i])
    ensures Blank(answers) ==> Operate(d, project, Answer(answers), id, now) == (d, Err(Invalid))
  {
    Text.SpaceTrims(answers);
  }

  // An accepted answer leaves one more note on the capture, and nothing else.
  lemma AnswerNotes(d: Durable, project: string, id: string, answers: string, now: int)
    requires Operate(d, project, Answer(answers), id, now).1.Ok?
    ensures id in d.pipelines && d.pipelines[id].capture in d.ev.tickets
    ensures
      var capture := d.pipelines[id].capture;
      var t := d.ev.tickets[capture];
      Operate(d, project, Answer(answers), id, now).0.ev ==
      d.ev.(tickets := d.ev.tickets[capture := t.(notes := t.notes + 1, updatedAt := now)])
  {
  }

  // Accepting a design returns exactly the tasks the review held, and that are still
  // blocked, to todo, and leaves the session approved with nothing held.
  lemma AcceptDesignReleases(d: Durable, project: string, id: string, now: int)
    requires Operate(d, project, AcceptDesign, id, now).1.Ok?
    ensures id in d.pipelines
    ensures
      var p, after := d.pipelines[id], Operate(d, project, AcceptDesign, id, now).0.ev;
      if p.session == "" then after == d.ev
      else
        var record := FindSession(d.ev.sessions, p.session);
        && record.Some?
        && after.tickets.Keys == d.ev.tickets.Keys
        && (forall t :: t in d.ev.tickets ==>
              after.tickets[t] ==
              if t in record.value.blocked && d.ev.tickets[t].status.Blocked?
              then d.ev.tickets[t].(status := Todo, updatedAt := now)
              else d.ev.tickets[t])
        && FindSession(after.sessions, p.session) == Some(record.value.(verdict := "approve", blocked := []))
        && (forall other :: other != p.session ==>
              FindSession(after.sessions, other) == FindSession(d.ev.sessions, other))
        && after.qa == d.ev.qa && after.runs == d.ev.runs
  {
    var p := d.pipelines[id];
    if p.session != "" {
      var record := FindSession(d.ev.sessions, p.session).value;
      ReviewGate.ReleaseTickets(d.ev, record.blocked, now);
      var approved := record.(verdict := APPROVE, blocked := []);
      forall other | other != p.session
        ensures FindSession(WriteSession(d.ev.sessions, approved), other) == FindSession(d.ev.sessions, other)
      {
        WriteSessionFrame(d.ev.sessions, approved, other);
      }
    }
  }

  // What the merge loop may have done to a ticket.
  predicate MaybeMerged(before: Ticket, after: Ticket, now: int) {
    after == before || (before.status.ReadyForReview? && after == before.(status := Finished, updatedAt := now))
  }

  // The loop changes no ticket but produced ones in review, which it finishes; when
  // it meets no error, all of them.
  lemma {:induction false} MergedTickets(ev: Evidence, produced: seq<TicketId>, now: int)
    ensures
      var (after, error) := MergeTasks(ev, produced, now);
      && after == ev.(tickets := after.tickets) && after.tickets.Keys == ev.tickets.Keys
      && forall t :: t in ev.tickets ==>
           && MaybeMerged(ev.tickets[t], after.tickets[t], now)
           && (t !in produced ==> after.tickets[t] == ev.tickets[t])
           && (t in produced && error.None? ==> !after.tickets[t].status.ReadyForReview?)
  {
    if produced != [] {
      var n := |produced| - 1;
      MergedTickets(ev, produced[..n], now);
      assert produced == produced[..n] + [produced[n]];
    }
  }

  // A merge finishes exactly the produced tasks in review; a refused one keeps what
  // it had finished and touches nothing else.
  lemma MergeFinishes(d: Durable, project: string, id: string, faultAt: nat, now: int)
    requires Owned(d, project, id).Ok?
    ensures
      var produced := d.pipelines[id].produced;
      var (after, result) := Operate(d, project, Merge(faultAt), id, now);
      && after.ev == d.ev.(tickets := after.ev.tickets) && after.ev.tickets.Keys == d.ev.tickets.Keys
      && (forall t :: t in d.ev.tickets ==>
            && MaybeMerged(d.ev.tickets[t], after.ev.tickets[t], now)
            && (t !in produced ==> after.ev.tickets[t] == d.ev.tickets[t])
            && (t in produced && result.Ok? ==> !after.ev.tickets[t].status.ReadyForReview?))
  {
    var produced := d.pipelines[id].produced;
    MergedTickets(d.ev, if faultAt < |produced| then produced[..faultAt] else produced, now);
  }

  // An accepted release closes the milestone, and nothing else.
  lemma ReleaseCloses(d: Durable, project: string, id: string, now: int)
    requires Operate(d, project, Release, id, now).1.Ok?
    ensures id in d.pipelines && d.pipelines[id].milestone.Some? && d.pipelines[id].milestone.value in d.ev.tickets
    ensures
      var milestone := d.pipelines[id].milestone.value;
      Operate(d, project, Release, id, now).0.ev ==
      d.ev.(tickets := d.ev.tickets[milestone := d.ev.tickets[milestone].(status := Finished, updatedAt := now)])
  {
  }

  // The other verbs write no evidence, and neither does a refused one, merges aside.
  lemma OthersWriteNothing(d: Durable, project: string, verb: Verb, id: string, now: int)
    requires forall i :: i in d.pipelines ==> d.pipelines[i].id == i && d.pipelines[i].Valid()
    requires
      || verb.Approve? || verb.Promote? || verb.Pause? || verb.Resume? || verb.Retry? || verb.Cancel?
      || (!verb.Merge? && Operate(d, project, verb, id, now).1.Err?)
    ensures Operate(d, project, verb, id, now).0.ev == d.ev
  {
    hide QaGate.SetStatus, QaGate.AddNote, ApproveSession;
  }

  // An offered verb whose own writes are refused says what is missing: the capture to
  // note on, the session to approve, the milestone to close or its ticket.
  lemma MissingSays(d: Durable, project: string, id: string, answers: string, now: int)
    requires Owned(d, project, id).Ok? && !Blank(answers)
    ensures
      var p := d.pipelines[id];
      && (Offered(Answer(answers), p) && p.capture !in d.ev.tickets ==>
            Operate(d, project, Answer(answers), id, now).1 == Err(NotFound))
      && (Offered(AcceptDesign, p) && p.session != "" && (forall s :: s in d.ev.sessions ==> s.id != p.session) ==>
            Operate(d, project, AcceptDesign, id, now).1 == Err(NotFound))
      && (Offered(Release, p) && p.milestone.None? ==> Operate(d, project, Release, id, now).1 == Err(Invalid))
      && (Offered(Release, p) && p.milestone.Some? && p.milestone.value !in d.ev.tickets ==>
            Operate(d, project, Release, id, now).1 == Err(NotFound))
  {
  }

  // Nobody else's pipeline is found, and a verb that is not offered conflicts.
  lemma RefusalSays(d: Durable, project: string, verb: Verb, id: string, now: int)
    requires !(verb.Answer? && Blank(verb.answers))
    ensures id !in d.pipelines || d.pipelines[id].project != project ==>
              Operate(d, project, verb, id, now).1 == Err(NotFound)
    ensures id in d.pipelines && d.pipelines[id].project == project && !Offered(verb, d.pipelines[id]) ==>
              Operate(d, project, verb, id, now).1 == Err(Conflict)
  {
    hide QaGate.SetStatus, QaGate.AddNote, ApproveSession, MergeTasks;
  }
}
