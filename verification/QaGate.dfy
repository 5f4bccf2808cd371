/**
 The feature QA gate: which captures are ready for QA, which verdict counts, and
 when a capture may be accepted.
 */
module QaGate {
  import opened Ordering
  import opened Tickets

  const PASS := "pass"
  const FAIL := "fail"

  predicate Newer(a: QaArtifact, b: QaArtifact) {
    a.createdAt > b.createdAt || (a.createdAt == b.createdAt && StrLess(b.id, a.id))
  }

  // The newest verdict of one capture, by time and then by artifact id.
  function Latest(verdicts: seq<QaArtifact>, capture: TicketId): (r: Option<QaArtifact>)
    ensures r.Some? ==> r.value in verdicts && r.value.capture == capture
    ensures r.None? <==> forall a :: a in verdicts ==> a.capture != capture
  {
    if verdicts == [] then None
    else
      var n := |verdicts| - 1;
      var best := Latest(verdicts[..n], capture);
      if verdicts[n].capture == capture && (best.None? || Newer(verdicts[n], best.value)) then Some(verdicts[n])
      else best
  }

  lemma {:induction false} LatestIsNewest(verdicts: seq<QaArtifact>, capture: TicketId)
    ensures forall a :: a in verdicts && a.capture == capture ==>
                          Latest(verdicts, capture).Some? && !Newer(a, Latest(verdicts, capture).value)
  {
    if verdicts != [] {
      var n := |verdicts| - 1;
      var last := verdicts[n];
      LatestIsNewest(verdicts[..n], capture);
      assert verdicts == verdicts[..n] + [last];
      forall a | a in verdicts && a.capture == capture
        ensures !Newer(a, Latest(verdicts, capture).value)
      {
        var best := Latest(verdicts, capture).value;
        StrLessTrichotomy(a.id, best.id);
        if a != last && best == last && Latest(verdicts[..n], capture).Some? {
          var prior := Latest(verdicts[..n], capture).value;
          StrLessTrichotomy(prior.id, last.id);
          StrLessTrichotomy(a.id, prior.id);
          if StrLess(last.id, a.id) && StrLess(prior.id, last.id) {
            StrLessTransitive(prior.id, last.id, a.id);
          }
        }
      }
    }
  }

  // Two listings of the same verdicts name the same latest one.
  lemma LatestIgnoresOrder(verdicts: seq<QaArtifact>, listing: seq<QaArtifact>, capture: TicketId)
    requires multiset(verdicts) == multiset(listing)
    requires forall a, b :: a in verdicts && b in verdicts && a.id == b.id ==> a == b
    ensures Latest(verdicts, capture) == Latest(listing, capture)
  {
    LatestIsNewest(verdicts, capture);
    LatestIsNewest(listing, capture);
    assert forall a :: a in verdicts <==> a in multiset(verdicts);
    assert forall a :: a in listing <==> a in multiset(listing);
    var l, r := Latest(verdicts, capture), Latest(listing, capture);
    if l.Some? {
      StrLessTrichotomy(l.value.id, r.value.id);
    }
  }

  method LatestQa(verdicts: seq<QaArtifact>, capture: TicketId) returns (latest: Option<QaArtifact>)
    ensures latest == Latest(verdicts, capture)
  {
    latest := None;
    for i := 0 to |verdicts|
      invariant latest == Latest(verdicts[..i], capture)
    {
      var artifact := verdicts[i];
      assert verdicts[..i + 1][..i] == verdicts[..i];
      if artifact.capture == capture {
        if latest.None? {
          latest := Some(artifact);
        } else if artifact.createdAt > latest.value.createdAt {
          latest := Some(artifact);
        } else if artifact.createdAt == latest.value.createdAt && StrLess(latest.value.id, artifact.id) {
          latest := Some(artifact);
        }
      }
    }
    assert verdicts[..|verdicts|] == verdicts;
  }

  predicate HasFeatures(tickets: map<TicketId, Ticket>, capture: TicketId) {
    exists id | id in tickets :: tickets[id].IsFeatureOf(capture)
  }

  predicate AllResolved(tickets: map<TicketId, Ticket>, capture: TicketId) {
    forall id | id in tickets :: tickets[id].IsFeatureOf(capture) ==> tickets[id].Resolved()
  }

  // No feature task was updated after this moment.
  predicate Current(tickets: map<TicketId, Ticket>, capture: TicketId, at: int) {
    forall id | id in tickets :: tickets[id].IsFeatureOf(capture) ==> tickets[id].updatedAt <= at
  }

  // The verdict is a pass that no feature task's update is newer than.
  predicate Stands(verdict: Option<QaArtifact>, tickets: map<TicketId, Ticket>, capture: TicketId) {
    verdict.Some? && verdict.value.brief == PASS && Current(tickets, capture, verdict.value.createdAt)
  }

  predicate Passed(ev: Evidence, capture: TicketId) {
    Stands(Latest(ev.qa, capture), ev.tickets, capture)
  }

  predicate AcceptGate(ev: Evidence, capture: TicketId) {
    HasFeatures(ev.tickets, capture) ==> AllResolved(ev.tickets, capture) && Passed(ev, capture)
  }

  function Record(ev: Evidence, capture: TicketId, verdict: string, id: string, now: int): Result<Evidence> {
    if verdict != PASS && verdict != FAIL then Err(Invalid)
    else if capture !in ev.tickets then Err(NotFound)
    else if !ev.tickets[capture].kind.CapturedByHuman() then Err(Invalid)
    else if verdict == PASS && !HasFeatures(ev.tickets, capture) then Err(Invalid)
    else if verdict == PASS && !AllResolved(ev.tickets, capture) then Err(Conflict)
    else Ok(ev.(qa := ev.qa + [QaArtifact(id, capture, verdict, now)]))
  }

  // TicketService.SetStatus: the accept gate guards only a capture's move to done.
  function SetStatus(ev: Evidence, id: TicketId, status: Status, now: int): Result<Evidence> {
    if id !in ev.tickets then Err(NotFound)
    else
      var moved := ev.tickets[id].(status := status);
      if status.Finished? && !ev.tickets[id].status.Finished? && moved.kind.CapturedByHuman() && !AcceptGate(ev, id)
      then Err(Conflict)
      else if !moved.kind.AllowsStatus(status) then Err(Invalid)
      else Ok(ev.(tickets := ev.tickets[id := moved.(updatedAt := now)]))
  }

  function AddNote(ev: Evidence, id: TicketId, now: int): Result<Evidence> {
    if id !in ev.tickets then Err(NotFound)
    else
      var ticket := ev.tickets[id];
      Ok(ev.(tickets := ev.tickets[id := ticket.(notes := ticket.notes + 1, updatedAt := now)]))
  }

  /* The other operations on tickets and verdicts. */

  // TicketService.Set of the kind: captures and executable work never turn into each other.
  function SetKind(ev: Evidence, id: TicketId, kind: Kind, now: int): Result<Evidence> {
    if id !in ev.tickets then Err(NotFound)
    else if kind != ev.tickets[id].kind && (kind.CapturedByHuman() || ev.tickets[id].kind.CapturedByHuman())
      then Err(Invalid)
    else Ok(ev.(tickets := ev.tickets[id := ev.tickets[id].(kind := kind, updatedAt := now)]))
  }

  // Whether the new edge closes a cycle is the task graph's answer.
  function AddDep(ev: Evidence, id: TicketId, dep: TicketId, cyclic: bool, now: int): Result<Evidence> {
    if id == dep then Err(Invalid)
    else if id !in ev.tickets || dep !in ev.tickets then Err(NotFound)
    else if dep in ev.tickets[id].deps || cyclic then Err(Conflict)
    else Ok(ev.(tickets := ev.tickets[id := ev.tickets[id].(deps := ev.tickets[id].deps + [dep], updatedAt := now)]))
  }

  predicate IsFirst(deps: seq<TicketId>, dep: TicketId, i: nat)
    requires i < |deps|
  {
    deps[i] == dep && dep !in deps[..i]
  }

  function RemoveFirst(deps: seq<TicketId>, dep: TicketId): (r: seq<TicketId>)
    ensures forall d :: d != dep ==> (d in r <==> d in deps)
    ensures dep in r ==> dep in deps
    ensures dep in deps ==> exists i :: 0 <= i < |deps| && IsFirst(deps, dep, i) && r == deps[..i] + deps[i + 1..]
  {
    if deps == [] then []
    else if deps[0] == dep then assert IsFirst(deps, dep, 0); deps[1..]
    else
      assert forall d :: d in deps <==> d == deps[0] || d in deps[1..];
      assert forall i :: 0 <= i < |deps| - 1 && IsFirst(deps[1..], dep, i) ==>
                           IsFirst(deps, dep, i + 1)
                           && [deps[0]] + (deps[1..][..i] + deps[1..][i + 1..]) == deps[..i + 1] + deps[i + 2..];
      [deps[0]] + RemoveFirst(deps[1..], dep)
  }

  function RemoveDep(ev: Evidence, id: TicketId, dep: TicketId, now: int): Result<Evidence> {
    if id !in ev.tickets || dep !in ev.tickets[id].deps then Err(NotFound)
    else
      var ticket := ev.tickets[id];
      Ok(ev.(tickets := ev.tickets[id := ticket.(deps := RemoveFirst(ticket.deps, dep), updatedAt := now)]))
  }

  predicate HasVerdict(qa: seq<QaArtifact>, id: string) {
    exists a | a in qa :: a.id == id
  }

  // ArtifactService.Add of a QA verdict asks only that its ticket exists.
  function AddVerdict(ev: Evidence, capture: TicketId, brief: string, id: string, now: int): Result<Evidence> {
    if capture !in ev.tickets then Err(NotFound)
    else Ok(ev.(qa := ev.qa + [QaArtifact(id, capture, brief, now)]))
  }

  function Without(qa: seq<QaArtifact>, id: string): (r: seq<QaArtifact>)
    ensures forall a :: a in r <==> a in qa && a.id != id
  {
    if qa == [] then []
    else
      var n := |qa| - 1;
      assert forall a :: a in qa <==> a in qa[..n] || a == qa[n];
      Without(qa[..n], id) + if qa[n].id == id then [] else [qa[n]]
  }

  function DeleteVerdict(ev: Evidence, id: string): Result<Evidence> {
    if !HasVerdict(ev.qa, id) then Err(NotFound) else Ok(ev.(qa := Without(ev.qa, id)))
  }

  // A patch of a verdict; a missing part is left as it is, and a verdict detached
  // from its ticket names none. The creation time never changes.
  datatype Patch = Patch(brief: Option<string>, capture: Option<TicketId>, detach: bool)

  function Patched(a: QaArtifact, patch: Patch): QaArtifact {
    a.(brief := if patch.brief.Some? then patch.brief.value else a.brief,
       capture := if patch.detach then "" else if patch.capture.Some? then patch.capture.value else a.capture)
  }

  function PatchedAll(qa: seq<QaArtifact>, id: string, patch: Patch): seq<QaArtifact> {
    seq(|qa|, i requires 0 <= i < |qa| => if qa[i].id == id then Patched(qa[i], patch) else qa[i])
  }

  function EditVerdict(ev: Evidence, id: string, patch: Patch): Result<Evidence> {
    if !HasVerdict(ev.qa, id) then Err(NotFound)
    else if !patch.detach && patch.capture.Some? && patch.capture.value !in ev.tickets then Err(NotFound)
    else Ok(ev.(qa := PatchedAll(ev.qa, id, patch)))
  }

  /* The gate over runs of operations. */

  datatype Operation =
    | RecordVerdict(capture: TicketId, verdict: string, artifact: string)
    | PostVerdict(capture: TicketId, brief: string, artifact: string)
    | PatchVerdict(artifact: string, patch: Patch)
    | DropVerdict(artifact: string)
    | MoveTicket(id: TicketId, status: Status)
    | RekindTicket(id: TicketId, kind: Kind)
    | NoteTicket(id: TicketId)
    | LinkTicket(id: TicketId, dep: TicketId, cyclic: bool)
    | UnlinkTicket(id: TicketId, dep: TicketId)
    | AddTicket(ticket: Ticket)
    | DeleteTicket(id: TicketId)

  datatype Stamped = Stamped(at: int, op: Operation)

  function Try(ev: Evidence, result: Result<Evidence>): Evidence {
    if result.Ok? then result.value else ev
  }

  // One operation at its clock reading; a refused operation changes nothing.
  function Perform(ev: Evidence, stamped: Stamped): Evidence {
    var now := stamped.at;
    match stamped.op
    case RecordVerdict(capture, verdict, artifact) => Try(ev, Record(ev, capture, verdict, artifact, now))
    case PostVerdict(capture, brief, artifact) => Try(ev, AddVerdict(ev, capture, brief, artifact, now))
    case PatchVerdict(artifact, patch) => Try(ev, EditVerdict(ev, artifact, patch))
    case DropVerdict(artifact) => Try(ev, DeleteVerdict(ev, artifact))
    case MoveTicket(id, status) => Try(ev, SetStatus(ev, id, status, now))
    case RekindTicket(id, kind) => Try(ev, SetKind(ev, id, kind, now))
    case NoteTicket(id) => Try(ev, AddNote(ev, id, now))
    case LinkTicket(id, dep, cyclic) => Try(ev, AddDep(ev, id, dep, cyclic, now))
    case UnlinkTicket(id, dep) => Try(ev, RemoveDep(ev, id, dep, now))
    case AddTicket(ticket) =>
      if ticket.id in ev.tickets then ev
      else ev.(tickets := ev.tickets[ticket.id := ticket.(updatedAt := now)])
    case DeleteTicket(id) => ev.(tickets := ev.tickets - {id})
  }

  function PerformAll(ev: Evidence, ops: seq<Stamped>): Evidence
    decreases |ops|
  {
    if ops == [] then ev else PerformAll(Perform(ev, ops[0]), ops[1..])
  }

  ghost predicate StampedBefore(ev: Evidence, clock: int) {
    && (forall id :: id in ev.tickets ==> ev.tickets[id].updatedAt < clock)
    && (forall a :: a in ev.qa ==> a.createdAt < clock)
  }

  ghost predicate OneVerdictPerId(qa: seq<QaArtifact>) {
    forall a, b :: a in qa && b in qa && a.id == b.id ==> a == b
  }

  // A verdict edited: its brief and capture as the patch says, its id and time kept.
  predicate EditOf(before: QaArtifact, after: QaArtifact, patch: Patch) {
    && after.id == before.id && after.createdAt == before.createdAt
    && (if patch.brief.Some? then Some(after.brief) == patch.brief else after.brief == before.brief)
    && (if patch.detach then after.capture == ""
        else if patch.capture.Some? then Some(after.capture) == patch.capture
        else after.capture == before.capture)
  }

  // What the operations on verdicts accept, and what they then leave: an edit asks
  // for the verdict and for the ticket it moves it to, and keeps its time.
  lemma VerdictEdits(ev: Evidence, id: string, patch: Patch, capture: TicketId, brief: string, now: int)
    ensures
      var edited := EditVerdict(ev, id, patch);
      && (edited.Ok? <==>
          && (exists i :: 0 <= i < |ev.qa| && ev.qa[i].id == id)
          && (patch.detach || patch.capture.None? || patch.capture.value in ev.tickets))
      && (edited.Ok? ==>
            && edited.value == ev.(qa := edited.value.qa) && |edited.value.qa| == |ev.qa|
            && forall i :: 0 <= i < |ev.qa| ==>
                 if ev.qa[i].id == id then EditOf(ev.qa[i], edited.value.qa[i], patch)
                 else edited.value.qa[i] == ev.qa[i])
    ensures DeleteVerdict(ev, id).Ok? <==> exists i :: 0 <= i < |ev.qa| && ev.qa[i].id == id
    ensures AddVerdict(ev, capture, brief, id, now).Ok? <==> capture in ev.tickets
    ensures capture in ev.tickets ==>
              AddVerdict(ev, capture, brief, id, now).value ==
              ev.(qa := ev.qa + [QaArtifact(id, capture, brief, now)])
  {
    if a :| a in ev.qa && a.id == id {
      var i :| 0 <= i < |ev.qa| && ev.qa[i] == a;
      assert ev.qa[i].id == id;
    }
    if i :| 0 <= i < |ev.qa| && ev.qa[i].id == id {
      assert ev.qa[i] in ev.qa;
    }
  }

  // What the edits of a ticket accept: a kind stays on its side of the line between
  // captures and work, and an edge needs both ends, is new and closes no cycle.
  lemma TicketEdits(ev: Evidence, id: TicketId, kind: Kind, dep: TicketId, cyclic: bool, now: int)
    ensures SetKind(ev, id, kind, now).Ok? <==>
            id in ev.tickets && (ev.tickets[id].kind == kind || {ev.tickets[id].kind, kind} <= {Task, Milestone})
    ensures SetKind(ev, id, kind, now).Ok? ==>
              SetKind(ev, id, kind, now).value ==
              ev.(tickets := ev.tickets[id := ev.tickets[id].(kind := kind, updatedAt := now)])
    ensures AddDep(ev, id, dep, cyclic, now).Ok? <==>
            id != dep && id in ev.tickets && dep in ev.tickets && dep !in ev.tickets[id].deps && !cyclic
    ensures AddDep(ev, id, dep, cyclic, now).Ok? ==>
              AddDep(ev, id, dep, cyclic, now).value.tickets ==
              ev.tickets[id := ev.tickets[id].(deps := ev.tickets[id].deps + [dep], updatedAt := now)]
    ensures RemoveDep(ev, id, dep, now).Ok? <==> id in ev.tickets && dep in ev.tickets[id].deps
  {
  }

  // Everything was stamped earlier, and an artifact id is given out once.
  ghost predicate Orderly(ev: Evidence, clock: int) {
    StampedBefore(ev, clock) && OneVerdictPerId(ev.qa)
  }

  ghost predicate NewId(ev: Evidence, op: Operation) {
    (op.RecordVerdict? || op.PostVerdict?) ==> !HasVerdict(ev.qa, op.artifact)
  }

  // The clock moves forward over the run, and artifact ids are new.
  ghost predicate Timely(ev: Evidence, clock: int, ops: seq<Stamped>)
    decreases |ops|
  {
    ops == [] || (clock <= ops[0].at && NewId(ev, ops[0].op) && Timely(Perform(ev, ops[0]), ops[0].at + 1, ops[1..]))
  }

  // The verdict that counts is missing, a fail, or older than a feature task's update.
  ghost predicate Closed(ev: Evidence, capture: TicketId) {
    HasFeatures(ev.tickets, capture) && !Passed(ev, capture)
  }

  predicate IsFeature(tickets: map<TicketId, Ticket>, id: TicketId, capture: TicketId) {
    id in tickets && tickets[id].IsFeatureOf(capture)
  }

  // With this feature task gone none is left, or the verdict that counts is a pass
  // and only this task was updated after it.
  predicate OnlyObstacle(ev: Evidence, id: TicketId, capture: TicketId) {
    || (forall other | other in ev.tickets :: other != id ==> !IsFeature(ev.tickets, other, capture))
    || (var latest := Latest(ev.qa, capture);
        && latest.Some? && latest.value.brief == PASS
        && forall other | other in ev.tickets :: other != id && IsFeature(ev.tickets, other, capture) ==>
             ev.tickets[other].updatedAt <= latest.value.createdAt)
  }

  // The newer of two verdicts, where there are any.
  function Newest(a: Option<QaArtifact>, b: Option<QaArtifact>): Option<QaArtifact> {
    if a.None? then b else if b.None? then a else if Newer(a.value, b.value) then a else b
  }

  function Named(qa: seq<QaArtifact>, id: string): (r: Option<QaArtifact>)
    ensures r.Some? ==> r.value in qa && r.value.id == id
    ensures r.None? <==> !HasVerdict(qa, id)
  {
    if qa == [] then None
    else if qa[0].id == id then Some(qa[0])
    else
      assert forall a :: a in qa <==> a == qa[0] || a in qa[1..];
      Named(qa[1..], id)
  }

  // The verdict as patched, if it then belongs to the capture.
  function PatchedFor(qa: seq<QaArtifact>, id: string, patch: Patch, capture: TicketId): Option<QaArtifact> {
    match Named(qa, id)
    case None => None
    case Some(a) => if Patched(a, patch).capture == capture then Some(Patched(a, patch)) else None
  }

  // What ends a closed gate, operation by operation.
  predicate Opens(ev: Evidence, op: Operation, capture: TicketId) {
    match op
    // A recorded pass, accepted because every feature task is resolved.
    case RecordVerdict(c, verdict, _) =>
      && c == capture && verdict == PASS && capture in ev.tickets && ev.tickets[capture].kind.CapturedByHuman()
      && AllResolved(ev.tickets, capture)
    // A pass posted as an artifact, which nothing is asked of.
    case PostVerdict(c, brief, _) => c == capture && brief == PASS && capture in ev.tickets
    // A verdict edited so that the newest one is a pass no update is newer than.
    case PatchVerdict(artifact, patch) =>
      && EditVerdict(ev, artifact, patch).Ok?
      && Stands(Newest(Latest(Without(ev.qa, artifact), capture), PatchedFor(ev.qa, artifact, patch, capture)),
                ev.tickets, capture)
    // The verdict that counts deleted, with such a pass the next newest.
    case DropVerdict(artifact) =>
      && Latest(ev.qa, capture).Some? && Latest(ev.qa, capture).value.id == artifact
      && Stands(Latest(Without(ev.qa, artifact), capture), ev.tickets, capture)
    // The one obstacle among the feature tasks cut loose, or deleted.
    case UnlinkTicket(id, dep) =>
      && dep == capture && IsFeature(ev.tickets, id, capture) && capture !in RemoveFirst(ev.tickets[id].deps, capture)
      && OnlyObstacle(ev, id, capture)
    case DeleteTicket(id) => IsFeature(ev.tickets, id, capture) && OnlyObstacle(ev, id, capture)
    // A move, note, new edge, new kind or new ticket never.
    case _ => false
  }

  lemma LatestAppend(verdicts: seq<QaArtifact>, a: QaArtifact, capture: TicketId)
    requires forall b :: b in verdicts ==> b.createdAt < a.createdAt
    ensures Latest(verdicts + [a], capture) == if a.capture == capture then Some(a) else Latest(verdicts, capture)
  {
    assert (verdicts + [a])[..|verdicts|] == verdicts;
  }

  // A verdict of the capture newer than every other is the latest.
  lemma LatestIs(qa: seq<QaArtifact>, capture: TicketId, a: QaArtifact)
    requires a in qa && a.capture == capture
    requires forall b :: b in qa && b.capture == capture && b != a ==> Newer(a, b)
    ensures Latest(qa, capture) == Some(a)
  {
    LatestIsNewest(qa, capture);
  }

  lemma NewerTotal(a: QaArtifact, b: QaArtifact)
    ensures a.id != b.id ==> Newer(a, b) || Newer(b, a)
    ensures !(Newer(a, b) && Newer(b, a))
  {
    StrLessTrichotomy(a.id, b.id);
  }

  lemma LatestBeats(qa: seq<QaArtifact>, capture: TicketId, b: QaArtifact)
    requires OneVerdictPerId(qa) && b in qa && b.capture == capture
    ensures Latest(qa, capture).Some? && (b == Latest(qa, capture).value || Newer(Latest(qa, capture).value, b))
  {
    LatestIsNewest(qa, capture);
    NewerTotal(b, Latest(qa, capture).value);
  }

  // Deleting any verdict but the latest leaves the latest.
  lemma LatestKept(qa: seq<QaArtifact>, id: string, capture: TicketId)
    requires OneVerdictPerId(qa) && (Latest(qa, capture).Some? ==> Latest(qa, capture).value.id != id)
    ensures Latest(Without(qa, id), capture) == Latest(qa, capture)
  {
    if Latest(qa, capture).Some? {
      var a := Latest(qa, capture).value;
      forall b | b in Without(qa, id) && b.capture == capture && b != a
        ensures Newer(a, b)
      {
        LatestBeats(qa, capture, b);
      }
      LatestIs(Without(qa, id), capture, a);
    }
  }

  lemma PatchedMembers(qa: seq<QaArtifact>, id: string, patch: Patch)
    requires OneVerdictPerId(qa) && HasVerdict(qa, id)
    ensures
      var edited := Patched(Named(qa, id).value, patch);
      forall a :: a in PatchedAll(qa, id, patch) <==> a in Without(qa, id) || a == edited
  {
    var before, next := Named(qa, id).value, PatchedAll(qa, id, patch);
    var edited := Patched(before, patch);
    forall a | a in next
      ensures a in Without(qa, id) || a == edited
    {
      var i :| 0 <= i < |next| && next[i] == a;
      assert qa[i] in qa;
    }
    forall a | a in Without(qa, id) || a == edited
      ensures a in next
    {
      var source := if a in Without(qa, id) then a else before;
      var i :| 0 <= i < |qa| && qa[i] == source;
      assert next[i] == if source.id == id then Patched(source, patch) else source;
      assert next[i] in next;
    }
  }

  // After a patch the latest verdict is the newer of the patched one, if it names
  // the capture, and the newest of the others.
  lemma LatestPatched(qa: seq<QaArtifact>, id: string, patch: Patch, capture: TicketId)
    requires OneVerdictPerId(qa) && HasVerdict(qa, id)
    ensures OneVerdictPerId(PatchedAll(qa, id, patch))
    ensures Latest(PatchedAll(qa, id, patch), capture) ==
            Newest(Latest(Without(qa, id), capture), PatchedFor(qa, id, patch, capture))
  {
    hide Latest, Named, Without, PatchedAll;
    PatchedMembers(qa, id, patch);
    var next, rest := PatchedAll(qa, id, patch), Latest(Without(qa, id), capture);
    var edited := PatchedFor(qa, id, patch, capture);
    var newest := Newest(rest, edited);
    if newest.Some? {
      if rest.Some? && edited.Some? {
        NewerTotal(rest.value, edited.value);
      }
      forall b | b in next && b.capture == capture && b != newest.value
        ensures Newer(newest.value, b)
      {
        if b in Without(qa, id) {
          LatestBeats(Without(qa, id), capture, b);
          if b != rest.value && newest == edited {
            NewerTransitive(edited.value, rest.value, b);
          }
        }
      }
      LatestIs(next, capture, newest.value);
    }
  }

  lemma NewerTransitive(a: QaArtifact, b: QaArtifact, c: QaArtifact)
    requires Newer(a, b) && Newer(b, c)
    ensures Newer(a, c)
  {
    if a.createdAt == c.createdAt {
      StrLessTransitive(c.id, b.id, a.id);
    }
  }

  // A step that rewrites or adds one ticket, with this moment as its update.
  ghost predicate Touches(ev: Evidence, next: Evidence, id: TicketId, now: int) {
    && next.qa == ev.qa
    && (next.tickets == ev.tickets
        || (id in next.tickets && next.tickets[id].updatedAt == now
            && next.tickets == ev.tickets[id := next.tickets[id]]))
  }

  // A touched ticket that stays, or becomes, a feature task keeps the gate closed.
  lemma TouchedStaysClosed(ev: Evidence, next: Evidence, id: TicketId, now: int, capture: TicketId)
    requires Closed(ev, capture) && Orderly(ev, now) && Touches(ev, next, id, now)
    requires IsFeature(ev.tickets, id, capture) ==> IsFeature(next.tickets, id, capture)
    ensures Closed(next, capture) && Orderly(next, now + 1)
  {
    var feature :| feature in ev.tickets && ev.tickets[feature].IsFeatureOf(capture);
    assert feature in next.tickets && next.tickets[feature].IsFeatureOf(capture);
    var latest := Latest(ev.qa, capture);
    if latest.Some? && latest.value.brief == PASS {
      var stale :| stale in ev.tickets && ev.tickets[stale].IsFeatureOf(capture)
                   && ev.tickets[stale].updatedAt > latest.value.createdAt;
      assert stale in next.tickets && next.tickets[stale].IsFeatureOf(capture);
      assert next.tickets[stale].updatedAt > latest.value.createdAt;
    }
  }

  // A feature task that leaves the feature ends the closed gate exactly when it was
  // the only obstacle.
  lemma LeavingFeature(ev: Evidence, next: Evidence, id: TicketId, capture: TicketId)
    requires Closed(ev, capture) && next.qa == ev.qa && IsFeature(ev.tickets, id, capture)
    requires !IsFeature(next.tickets, id, capture)
    requires forall other :: other != id ==>
               (other in next.tickets <==> other in ev.tickets)
               && (other in ev.tickets ==> next.tickets[other] == ev.tickets[other])
    ensures !Closed(next, capture) <==> OnlyObstacle(ev, id, capture)
  {
    var latest := Latest(ev.qa, capture);
    forall other
      ensures IsFeature(next.tickets, other, capture) <==> other != id && IsFeature(ev.tickets, other, capture)
    {
    }
    if Closed(next, capture) {
      var other :| other in next.tickets && next.tickets[other].IsFeatureOf(capture);
      assert IsFeature(next.tickets, other, capture) && other in ev.tickets;
      if latest.Some? && latest.value.brief == PASS {
        var stale :| stale in next.tickets && next.tickets[stale].IsFeatureOf(capture)
                     && next.tickets[stale].updatedAt > latest.value.createdAt;
        assert IsFeature(next.tickets, stale, capture) && stale in ev.tickets;
      }
    } else if HasFeatures(next.tickets, capture) {
      forall other | other in ev.tickets && other != id && IsFeature(ev.tickets, other, capture)
        ensures ev.tickets[other].updatedAt <= latest.value.createdAt
      {
        assert IsFeature(next.tickets, other, capture);
      }
    } else {
      forall other | other in ev.tickets && other != id
        ensures !IsFeature(ev.tickets, other, capture)
      {
        assert !IsFeature(next.tickets, other, capture);
      }
    }
  }

  // A step that changes verdicts only.
  lemma VerdictStep(ev: Evidence, next: Evidence, capture: TicketId)
    requires Closed(ev, capture) && next.tickets == ev.tickets
    ensures !Closed(next, capture) <==> Stands(Latest(next.qa, capture), ev.tickets, capture)
  {
  }

  lemma AddedVerdict(ev: Evidence, a: QaArtifact, capture: TicketId)
    requires Closed(ev, capture) && Orderly(ev, a.createdAt) && !HasVerdict(ev.qa, a.id)
    ensures
      var next := ev.(qa := ev.qa + [a]);
      && (!Closed(next, capture) <==> a.capture == capture && a.brief == PASS)
      && Orderly(next, a.createdAt + 1)
  {
    LatestAppend(ev.qa, a, capture);
    VerdictStep(ev, ev.(qa := ev.qa + [a]), capture);
    assert forall b :: b in ev.qa + [a] ==> b in ev.qa || b == a;
  }

  // One operation on the verdicts ends a closed gate exactly when it is one that opens it.
  lemma VerdictOpensIff(ev: Evidence, stamped: Stamped, capture: TicketId)
    requires Closed(ev, capture) && Orderly(ev, stamped.at) && NewId(ev, stamped.op)
    requires stamped.op.RecordVerdict? || stamped.op.PostVerdict? || stamped.op.PatchVerdict? || stamped.op.DropVerdict?
    ensures !Closed(Perform(ev, stamped), capture) <==> Opens(ev, stamped.op, capture)
    ensures Orderly(Perform(ev, stamped), stamped.at + 1)
  {
    hide Latest, Without, PatchedAll, Named;
    match stamped.op {
      case RecordVerdict(c, verdict, artifact) =>
        AddedVerdict(ev, QaArtifact(artifact, c, verdict, stamped.at), capture);
      case PostVerdict(c, brief, artifact) =>
        AddedVerdict(ev, QaArtifact(artifact, c, brief, stamped.at), capture);
      case PatchVerdict(artifact, patch) =>
        if EditVerdict(ev, artifact, patch).Ok? {
          LatestPatched(ev.qa, artifact, patch, capture);
          PatchedMembers(ev.qa, artifact, patch);
          VerdictStep(ev, Perform(ev, stamped), capture);
        }
      case DropVerdict(artifact) =>
        if Latest(ev.qa, capture).None? || Latest(ev.qa, capture).value.id != artifact {
          LatestKept(ev.qa, artifact, capture);
        }
        VerdictStep(ev, Perform(ev, stamped), capture);
    }
  }

  lemma TouchOpensNothing(ev: Evidence, stamped: Stamped, capture: TicketId)
    requires Closed(ev, capture) && Orderly(ev, stamped.at)
    requires
      var op := stamped.op;
      op.MoveTicket? || op.RekindTicket? || op.NoteTicket? || op.LinkTicket? || op.AddTicket?
    ensures Closed(Perform(ev, stamped), capture)
    ensures Orderly(Perform(ev, stamped), stamped.at + 1)
  {
    var id := if stamped.op.AddTicket? then stamped.op.ticket.id else stamped.op.id;
    TouchedStaysClosed(ev, Perform(ev, stamped), id, stamped.at, capture);
  }

  lemma LossOpensIff(ev: Evidence, stamped: Stamped, capture: TicketId)
    requires Closed(ev, capture) && Orderly(ev, stamped.at) && (stamped.op.UnlinkTicket? || stamped.op.DeleteTicket?)
    ensures !Closed(Perform(ev, stamped), capture) <==> Opens(ev, stamped.op, capture)
    ensures Orderly(Perform(ev, stamped), stamped.at + 1)
  {
    var next, id := Perform(ev, stamped), stamped.op.id;
    if IsFeature(ev.tickets, id, capture) && !IsFeature(next.tickets, id, capture) {
      LeavingFeature(ev, next, id, capture);
    } else if stamped.op.UnlinkTicket? {
      TouchedStaysClosed(ev, next, id, stamped.at, capture);
    } else {
      NotAFeature(ev, next, id, capture);
    }
  }

  lemma NotAFeature(ev: Evidence, next: Evidence, id: TicketId, capture: TicketId)
    requires Closed(ev, capture) && !IsFeature(ev.tickets, id, capture) && next == ev.(tickets := ev.tickets - {id})
    ensures Closed(next, capture)
  {
    var feature :| feature in ev.tickets && ev.tickets[feature].IsFeatureOf(capture);
    assert feature in next.tickets;
    var latest := Latest(ev.qa, capture);
    if latest.Some? && latest.value.brief == PASS {
      var stale :| stale in ev.tickets && ev.tickets[stale].IsFeatureOf(capture)
                   && ev.tickets[stale].updatedAt > latest.value.createdAt;
      assert stale in next.tickets;
    }
  }

  // An operation ends a closed gate if and only if it is one that opens it.
  lemma OpensIff(ev: Evidence, stamped: Stamped, capture: TicketId)
    requires Closed(ev, capture) && Orderly(ev, stamped.at) && NewId(ev, stamped.op)
    ensures !Closed(Perform(ev, stamped), capture) <==> Opens(ev, stamped.op, capture)
    ensures Orderly(Perform(ev, stamped), stamped.at + 1)
  {
    hide Perform, Opens, Closed, Orderly;
    var op := stamped.op;
    if op.RecordVerdict? || op.PostVerdict? || op.PatchVerdict? || op.DropVerdict? {
      VerdictOpensIff(ev, stamped, capture);
    } else if op.UnlinkTicket? || op.DeleteTicket? {
      LossOpensIff(ev, stamped, capture);
    } else {
      TouchOpensNothing(ev, stamped, capture);
      NeverOpens(ev, op, capture);
    }
  }

  lemma NeverOpens(ev: Evidence, op: Operation, capture: TicketId)
    requires op.MoveTicket? || op.RekindTicket? || op.NoteTicket? || op.LinkTicket? || op.AddTicket?
    ensures !Opens(ev, op, capture)
  {
  }

  // The gate is closed after every operation of the run.
  ghost predicate StaysClosed(ev: Evidence, ops: seq<Stamped>, capture: TicketId)
    decreases |ops|
  {
    ops == [] || (Closed(Perform(ev, ops[0]), capture) && StaysClosed(Perform(ev, ops[0]), ops[1..], capture))
  }

  ghost predicate NoneOpens(ev: Evidence, ops: seq<Stamped>, capture: TicketId)
    decreases |ops|
  {
    ops == [] || (!Opens(ev, ops[0].op, capture) && NoneOpens(Perform(ev, ops[0]), ops[1..], capture))
  }

  // Over every run a closed gate stays closed throughout if and only if no operation
  // of the run is one that opens it when its turn comes.
  lemma {:induction false} ClosedUntilOpened(ev: Evidence, ops: seq<Stamped>, capture: TicketId, clock: int)
    requires Closed(ev, capture) && Orderly(ev, clock) && Timely(ev, clock, ops)
    ensures StaysClosed(ev, ops, capture) <==> NoneOpens(ev, ops, capture)
    decreases |ops|
  {
    hide Perform, Opens, Closed;
    if ops != [] {
      OpensIff(ev, ops[0], capture);
      if !Opens(ev, ops[0].op, capture) {
        ClosedUntilOpened(Perform(ev, ops[0]), ops[1..], capture, ops[0].at + 1);
      }
    }
  }

  // While it is closed every acceptance of the capture is refused.
  lemma {:induction false} ClosedRefuses(ev: Evidence, ops: seq<Stamped>, capture: TicketId, now: int)
    requires Closed(ev, capture) && StaysClosed(ev, ops, capture)
    ensures
      var end := PerformAll(ev, ops);
      && !AcceptGate(end, capture)
      && (capture in end.tickets && end.tickets[capture].kind.CapturedByHuman()
          && !end.tickets[capture].status.Finished?
          ==> SetStatus(end, capture, Finished, now) == Err(Conflict))
    decreases |ops|
  {
    hide Perform;
    if ops != [] {
      ClosedRefuses(Perform(ev, ops[0]), ops[1..], capture, now);
    }
  }

  // A later fail, or a later update of any feature task, closes the gate.
  lemma FailOrUpdateCloses(ev: Evidence, stamped: Stamped, capture: TicketId)
    requires HasFeatures(ev.tickets, capture) && Orderly(ev, stamped.at)
    requires
      || (stamped.op.RecordVerdict? && stamped.op.capture == capture && stamped.op.verdict == FAIL
          && capture in ev.tickets && ev.tickets[capture].kind.CapturedByHuman())
      || ((stamped.op.MoveTicket? || stamped.op.NoteTicket?) && IsFeature(ev.tickets, stamped.op.id, capture))
    ensures Closed(Perform(ev, stamped), capture)
  {
    var next := Perform(ev, stamped);
    var feature :| feature in ev.tickets && ev.tickets[feature].IsFeatureOf(capture);
    assert feature in next.tickets && next.tickets[feature].IsFeatureOf(capture);
    if stamped.op.RecordVerdict? {
      LatestAppend(ev.qa, QaArtifact(stamped.op.artifact, capture, FAIL, stamped.at), capture);
    } else {
      assert next.tickets[stamped.op.id].updatedAt == stamped.at;
    }
  }

  // A pass made stale by one of two tasks.
  function StaleExample(): Evidence {
    Evidence(
      map["i" := Ticket("i", "p", Idea, Todo, [], 0, 0),
          "a" := Ticket("a", "p", Task, Finished, ["i"], 0, 1),
          "b" := Ticket("b", "p", Task, Finished, ["i"], 0, 9)],
      [], [QaArtifact("q", "i", PASS, 5)], map[])
  }

  lemma ExampleIsClosed()
    ensures Closed(StaleExample(), "i") && Orderly(StaleExample(), 10) && OnlyObstacle(StaleExample(), "b", "i")
  {
    var ev, pass := StaleExample(), QaArtifact("q", "i", PASS, 5);
    assert ev.tickets["b"].IsFeatureOf("i");
    LatestIs(ev.qa, "i", pass);
  }

  // Deleting the stale task, or its edge to the capture, brings the pass back.
  lemma LosingATaskRevivesThePass()
    ensures Closed(StaleExample(), "i")
    ensures !Closed(Perform(StaleExample(), Stamped(10, DeleteTicket("b"))), "i")
    ensures !Closed(Perform(StaleExample(), Stamped(10, UnlinkTicket("b", "i"))), "i")
  {
    hide Closed, Orderly, Perform, OnlyObstacle;
    ExampleIsClosed();
    var ev := StaleExample();
    assert IsFeature(ev.tickets, "b", "i");
    assert RemoveFirst(["i"], "i") == [];
    OpensIff(ev, Stamped(10, DeleteTicket("b")), "i");
    OpensIff(ev, Stamped(10, UnlinkTicket("b", "i")), "i");
  }

  // Recording a pass and then accepting, with nothing in between, succeeds.
  lemma PassThenAccept(ev: Evidence, capture: TicketId, artifact: string, recordedAt: int, acceptedAt: int)
    requires capture in ev.tickets && ev.tickets[capture].kind.CapturedByHuman()
    requires HasFeatures(ev.tickets, capture) && AllResolved(ev.tickets, capture)
    requires StampedBefore(ev, recordedAt)
    ensures Record(ev, capture, PASS, artifact, recordedAt).Ok?
    ensures
      var recorded := Record(ev, capture, PASS, artifact, recordedAt).value;
      var accepted := SetStatus(recorded, capture, Finished, acceptedAt);
      accepted.Ok? && accepted.value.tickets[capture].status == Finished
  {
  }

  /* The gate on the statuses and times of the tickets. */

  // A task or milestone the capture was promoted to.
  predicate WorkOf(t: Ticket, capture: TicketId) {
    (t.kind.Task? || t.kind.Milestone?) && capture in t.deps
  }

  // No verdict of the capture comes after this one, in time and then by id.
  ghost predicate IsNewest(qa: seq<QaArtifact>, capture: TicketId, a: QaArtifact) {
    && a in qa && a.capture == capture
    && forall b :: b in qa && b.capture == capture ==>
         b.createdAt < a.createdAt || (b.createdAt == a.createdAt && !StrLess(a.id, b.id))
  }

  // QA has passed exactly when the newest verdict is a pass and no work on the capture
  // was updated after it.
  lemma PassedIff(ev: Evidence, capture: TicketId)
    requires OneVerdictPerId(ev.qa)
    ensures Passed(ev, capture) <==>
            exists a :: IsNewest(ev.qa, capture, a) && a.brief == "pass"
              && forall id :: id in ev.tickets && WorkOf(ev.tickets[id], capture) ==>
                   ev.tickets[id].updatedAt <= a.createdAt
  {
    LatestIsNewest(ev.qa, capture);
    var latest := Latest(ev.qa, capture);
    if latest.Some? {
      assert IsNewest(ev.qa, capture, latest.value) by {
        forall b | b in ev.qa && b.capture == capture
          ensures b.createdAt < latest.value.createdAt
                  || (b.createdAt == latest.value.createdAt && !StrLess(latest.value.id, b.id))
        {
          LatestBeats(ev.qa, capture, b);
          StrLessTrichotomy(latest.value.id, b.id);
        }
      }
      forall a | IsNewest(ev.qa, capture, a)
        ensures a == latest.value
      {
        LatestBeats(ev.qa, capture, a);
        StrLessTrichotomy(latest.value.id, a.id);
      }
    }
  }

  // The work is finished: done, or for a task cancelled. In review is not finished.
  predicate WorkFinished(t: Ticket) {
    t.status.Finished? || (t.status.Dropped? && t.kind.Task?)
  }

  // A capture is accepted exactly when it has no work, or all its work is finished
  // and QA has passed; any other move is refused only for the statuses a capture
  // never takes.
  lemma StatusAcceptedIff(ev: Evidence, id: TicketId, status: Status, now: int)
    requires id in ev.tickets
    ensures
      var t := ev.tickets[id];
      var result := SetStatus(ev, id, status, now);
      var capture := t.kind.Idea? || t.kind.Bug?;
      var work := set w | w in ev.tickets && WorkOf(ev.tickets[w], id);
      var refused := capture && status.Finished? && !t.status.Finished? && work != {}
                     && !((forall w :: w in work ==> WorkFinished(ev.tickets[w])) && Passed(ev, id));
      && (result == Err(Conflict) <==> refused)
      && (result == Err(Invalid) <==> capture && (status.InProgress? || status.Blocked? || status.ReadyForReview?))
      && (result.Ok? <==> result != Err(Conflict) && result != Err(Invalid))
      && (result.Ok? ==>
            result.value == ev.(tickets := ev.tickets[id := t.(status := status, updatedAt := now)]))
  {
    hide Passed;
    var work := set w | w in ev.tickets && WorkOf(ev.tickets[w], id);
    assert forall w :: w in work <==> w in ev.tickets && ev.tickets[w].IsFeatureOf(id);
  }

  // A pass is recorded exactly on a capture with work, all of it finished; a fail on
  // any capture.
  lemma RecordedIff(ev: Evidence, id: TicketId, verdict: string, artifact: string, now: int)
    ensures
      var result := Record(ev, id, verdict, artifact, now);
      var work := set w | w in ev.tickets && WorkOf(ev.tickets[w], id);
      && (result.Ok? <==>
          && (verdict == "pass" || verdict == "fail")
          && id in ev.tickets && (ev.tickets[id].kind.Idea? || ev.tickets[id].kind.Bug?)
          && (verdict == "pass" ==> work != {} && forall w :: w in work ==> WorkFinished(ev.tickets[w])))
      && (result.Ok? ==> result.value == ev.(qa := ev.qa + [QaArtifact(artifact, id, verdict, now)]))
  {
    var work := set w | w in ev.tickets && WorkOf(ev.tickets[w], id);
    assert forall w :: w in work <==> w in ev.tickets && ev.tickets[w].IsFeatureOf(id);
  }

  /* The captures waiting for QA. */

  ghost predicate Indexes(children: map<TicketId, seq<Ticket>>, tasks: seq<Ticket>) {
    && (forall capture, t :: capture in children && t in children[capture] ==> t in tasks && t.IsFeatureOf(capture))
    && (forall capture, t :: t in tasks && t.IsFeatureOf(capture) ==> capture in children && t in children[capture])
    && (forall capture :: capture in children ==> children[capture] != [])
  }

  method FeatureChildrenByCapture(tasks: seq<Ticket>) returns (children: map<TicketId, seq<Ticket>>)
    ensures Indexes(children, tasks)
  {
    children := map[];
    for i := 0 to |tasks|
      invariant Indexes(children, tasks[..i])
    {
      var task := tasks[i];
      assert tasks[..i + 1] == tasks[..i] + [task];
      ghost var before := children;
      if task.kind.Executable() {
        for j := 0 to |task.deps|
          invariant forall capture, t :: capture in children && t in children[capture] ==>
              (capture in before && t in before[capture]) || (t == task && capture in task.deps[..j])
          invariant forall capture, t :: capture in before && t in before[capture] ==>
              capture in children && t in children[capture]
          invariant forall capture :: capture in task.deps[..j] ==> capture in children && task in children[capture]
          invariant forall capture :: capture in children ==> children[capture] != []
        {
          var dep := task.deps[j];
          assert task.deps[..j + 1] == task.deps[..j] + [dep];
          var existing := if dep in children then children[dep] else [];
          children := children[dep := existing + [task]];
        }
        assert task.deps[..|task.deps|] == task.deps;
      }
    }
    assert tasks[..|tasks|] == tasks;
  }

  // What Ready decides about one capture, from the project's own listing.
  predicate WaitsForQa(tasks: seq<Ticket>, ev: Evidence, capture: Ticket) {
    && capture.kind.CapturedByHuman()
    && (exists t | t in tasks :: t.IsFeatureOf(capture.id))
    && (forall t | t in tasks :: t.IsFeatureOf(capture.id) ==> t.Resolved())
    && !Passed(ev, capture.id)
  }

  lemma WaitsByKids(tasks: seq<Ticket>, ev: Evidence, capture: Ticket, kids: seq<Ticket>)
    requires forall t :: t in kids <==> t in tasks && t.IsFeatureOf(capture.id)
    ensures WaitsForQa(tasks, ev, capture) <==>
            && capture.kind.CapturedByHuman() && kids != [] && (forall t | t in kids :: t.Resolved())
            && !Passed(ev, capture.id)
  {
    hide Passed;
    assert kids != [] ==> kids[0] in kids;
  }

  predicate IdLess(a: Ticket, b: Ticket) {
    StrLess(a.id, b.id)
  }

  lemma IdLessWeak()
    ensures StrictWeak(IdLess)
  {
    StrLessStrictTotal();
    TotalIsWeak(StrLess);
    forall a: Ticket, b: Ticket, c: Ticket
      ensures !(IdLess(a, b) && IdLess(b, a))
      ensures IdLess(a, b) && IdLess(b, c) ==> IdLess(a, c)
      ensures !IdLess(a, b) && !IdLess(b, c) ==> !IdLess(a, c)
    {
      assert !(StrLess(a.id, b.id) && StrLess(b.id, a.id));
      assert StrLess(a.id, b.id) && StrLess(b.id, c.id) ==> StrLess(a.id, c.id);
      assert !StrLess(a.id, b.id) && !StrLess(b.id, c.id) ==> !StrLess(a.id, c.id);
    }
  }

  method Ready(tasks: seq<Ticket>, ev: Evidence) returns (ready: seq<Ticket>)
    ensures forall c :: c in ready <==> c in tasks && WaitsForQa(tasks, ev, c)
    ensures forall i, j :: 0 <= i < j < |ready| ==> !StrLess(ready[j].id, ready[i].id)
    ensures forall c :: multiset(ready)[c] == if WaitsForQa(tasks, ev, c) then multiset(tasks)[c] else 0
  {
    hide Passed, WaitsForQa;
    var children := FeatureChildrenByCapture(tasks);
    var found: seq<Ticket> := [];
    for i := 0 to |tasks|
      invariant forall c :: c in found <==> c in tasks[..i] && WaitsForQa(tasks, ev, c)
      invariant forall c :: multiset(found)[c] == if WaitsForQa(tasks, ev, c) then multiset(tasks[..i])[c] else 0
    {
      var capture := tasks[i];
      var kids := if capture.id in children then children[capture.id] else [];
      assert forall t :: t in kids <==> t in tasks && t.IsFeatureOf(capture.id);
      WaitsByKids(tasks, ev, capture, kids);
      if capture.kind.CapturedByHuman() && kids != [] && (forall t | t in kids :: t.Resolved())
        && !Passed(ev, capture.id) {
        found := found + [capture];
      }
      assert tasks[..i + 1] == tasks[..i] + [capture];
    }
    assert tasks[..|tasks|] == tasks;
    ready := SortBy(IdLess, found);
    IdLessWeak();
    SortBySorted(IdLess, found);
    forall i, j | 0 <= i < j < |ready|
      ensures !StrLess(ready[j].id, ready[i].id)
    {
      assert !IdLess(ready[j], ready[i]);
    }
    SortByPermutes(IdLess, found);
    forall c: Ticket
      ensures c in ready <==> c in found
    {
      SortByMembers(IdLess, found, c);
    }
  }

  // Waiting for QA, on the statuses: an idea or bug with work in the listing, all of it
  // finished, that QA has not passed.
  lemma WaitsIff(tasks: seq<Ticket>, ev: Evidence, c: Ticket)
    ensures WaitsForQa(tasks, ev, c) <==>
            && (c.kind.Idea? || c.kind.Bug?)
            && (exists t :: t in tasks && WorkOf(t, c.id))
            && (forall t :: t in tasks && WorkOf(t, c.id) ==> WorkFinished(t))
            && !Passed(ev, c.id)
  {
    hide Passed;
    assert forall t: Ticket :: WorkOf(t, c.id) <==> t.IsFeatureOf(c.id);
    assert forall t: Ticket :: WorkOf(t, c.id) ==> (WorkFinished(t) <==> t.Resolved());
  }

  // A whole capture waits for QA exactly when the accept gate refuses it: the
  // children index over one project agrees with the filter over every ticket.
  lemma ReadyIffGateRefuses(tasks: seq<Ticket>, ev: Evidence, capture: Ticket)
    requires capture.kind.CapturedByHuman()
    requires forall id :: id in ev.tickets ==> ev.tickets[id].id == id
    requires forall t :: t in tasks <==> t.id in ev.tickets && ev.tickets[t.id] == t && t.project == capture.project
    requires forall id :: id in ev.tickets && ev.tickets[id].IsFeatureOf(capture.id) ==>
               ev.tickets[id].project == capture.project
    requires HasFeatures(ev.tickets, capture.id) && AllResolved(ev.tickets, capture.id)
    ensures WaitsForQa(tasks, ev, capture) <==> !AcceptGate(ev, capture.id)
  {
  }
}
