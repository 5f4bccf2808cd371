/**
 Tickets and the durable evidence the factory reads: tickets, grooming
 sessions, QA verdicts and dispatched runs.
 */
module Tickets {

  type TicketId = string

  datatype Option<+T> = None | Some(value: T)

  datatype Error = NotFound | Invalid | Conflict | AlreadyExists | Stage(message: string) | Interrupted

  datatype Result<+T> = Ok(value: T) | Err(error: Error)

  datatype Status = Todo | InProgress | Blocked | ReadyForReview | Finished | Dropped

  datatype Kind = Task | Milestone | Idea | Bug {
    predicate Executable() { Task? || Milestone? }

    predicate CapturedByHuman() { Idea? || Bug? }

    // A capture is refined into work, so it is never started, blocked or reviewed.
    predicate AllowsStatus(status: Status) {
      CapturedByHuman() ==> status.Todo? || status.Finished? || status.Dropped?
    }
  }

  datatype Ticket = Ticket(
    id: TicketId, project: string, kind: Kind, status: Status,
    deps: seq<TicketId>, notes: nat, updatedAt: int)
  {
    // The feature policy: stricter than the graph's, a task in review is not resolved.
    predicate Resolved() {
      !kind.Executable() || status.Finished? || (kind.Task? && status.Dropped?)
    }

    predicate IsFeatureOf(capture: TicketId) {
      kind.Executable() && capture in deps
    }
  }

  // One QA verdict recorded on a capture; brief is "pass" or "fail".
  datatype QaArtifact = QaArtifact(id: string, capture: TicketId, brief: string, createdAt: int)

  // A grooming session's manifest. An empty verdict means no review is recorded.
  datatype Session = Session(
    id: string, scope: seq<TicketId>, produced: seq<TicketId>,
    verdict: string, blocked: seq<TicketId>)

  // An agent run a stage handed its work to, and whether its lease is valid.
  datatype AgentRun = AgentRun(pipeline: string, live: bool)

  // Sessions and verdicts are sequences in the store's listing order.
  datatype Evidence = Evidence(
    tickets: map<TicketId, Ticket>,
    sessions: seq<Session>,
    qa: seq<QaArtifact>,
    runs: map<string, AgentRun>)

  const NEEDS_REWORK := "needs-rework"
  const APPROVE := "approve"

  predicate BlocksBuild(verdict: string) {
    verdict == NEEDS_REWORK
  }

  function FindSession(sessions: seq<Session>, id: string): (r: Option<Session>)
    ensures r.Some? ==> r.value in sessions && r.value.id == id
    ensures r.None? <==> forall s :: s in sessions ==> s.id != id
  {
    if sessions == [] then None
    else if sessions[0].id == id then Some(sessions[0])
    else FindSession(sessions[1..], id)
  }

  // Replaces the manifest with this id, or adds it as the newest.
  function WriteSession(sessions: seq<Session>, record: Session): (r: seq<Session>)
    ensures FindSession(r, record.id) == Some(record)
  {
    if sessions == [] then [record]
    else if sessions[0].id == record.id then [record] + sessions[1..]
    else [sessions[0]] + WriteSession(sessions[1..], record)
  }

  lemma {:induction false} WriteSessionFrame(sessions: seq<Session>, record: Session, id: string)
    requires id != record.id
    ensures FindSession(WriteSession(sessions, record), id) == FindSession(sessions, id)
  {
    if sessions != [] && sessions[0].id != record.id {
      WriteSessionFrame(sessions[1..], record, id);
    }
  }
}
