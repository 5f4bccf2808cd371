/**
 Advisory checks over one task: results cached as artifacts, human decisions
 that override them, and clearing those decisions.
 */
module CheckCache {
  import opened Ordering
  import opened SpecHash
  import opened Tickets

  const HUMAN_DECIDED := "human-decided"

  datatype Verdict = Ready | NeedsGrooming | NeedsHuman

  // A rubric: a new version never reads what an old one stored.
  datatype Check = Check(name: string, version: string)

  datatype CheckResult = CheckResult(
    check: Check, hash: string, verdict: Verdict, override: bool, decidedBy: string, reason: string, checkedAt: int)

  // A task_check artifact; a body that does not parse is None.
  datatype Artifact = Artifact(id: string, at: int, body: Option<CheckResult>)

  datatype Subject = Subject(spec: Spec, labels: seq<string>, notes: nat)

  datatype State = State(artifacts: seq<Artifact>, task: Subject)

  datatype Actor = Human(id: string) | Agent(id: string)

  // The clock reading and identifier a stored artifact gets.
  datatype Stamp = Stamp(now: int, id: string)

  // What a caller sees, with the fields derived on reading.
  datatype Shown = Unchecked(check: Check) | Checked(result: CheckResult, stale: bool, notes: nat)

  /* The newest stored result. */

  datatype Which = Every | Judged | Decided

  predicate Selects(which: Which, check: Check, a: Artifact) {
    && a.body.Some? && a.body.value.check == check
    && (which.Judged? ==> !a.body.value.override)
    && (which.Decided? ==> a.body.value.override)
  }

  predicate Newer(a: Artifact, b: Artifact) {
    if a.at != b.at then a.at > b.at else StrLess(b.id, a.id)
  }

  function Latest(artifacts: seq<Artifact>, which: Which, check: Check): (r: Option<Artifact>)
    ensures r.Some? ==> r.value in artifacts && Selects(which, check, r.value)
    ensures r.None? <==> forall a :: a in artifacts ==> !Selects(which, check, a)
  {
    if artifacts == [] then None
    else
      var n := |artifacts| - 1;
      var best := Latest(artifacts[..n], which, check);
      if Selects(which, check, artifacts[n]) && (best.None? || Newer(artifacts[n], best.value)) then Some(artifacts[n])
      else best
  }

  function LatestResult(artifacts: seq<Artifact>, which: Which, check: Check): Option<CheckResult> {
    var latest := Latest(artifacts, which, check);
    if latest.Some? then latest.value.body else None
  }

  lemma LatestAppend(artifacts: seq<Artifact>, a: Artifact, which: Which, check: Check)
    requires forall b :: b in artifacts ==> b.at < a.at
    ensures Latest(artifacts + [a], which, check) ==
              if Selects(which, check, a) then Some(a) else Latest(artifacts, which, check)
  {
    assert (artifacts + [a])[..|artifacts|] == artifacts;
  }

  // The artifacts left once a check's decisions are deleted.
  function WithoutDecisions(artifacts: seq<Artifact>, check: Check): (r: seq<Artifact>)
    ensures forall a :: a in r <==> a in artifacts && !Selects(Decided, check, a)
  {
    if artifacts == [] then []
    else
      var n := |artifacts| - 1;
      WithoutDecisions(artifacts[..n], check) + if Selects(Decided, check, artifacts[n]) then [] else [artifacts[n]]
  }

  lemma LatestLast(artifacts: seq<Artifact>, a: Artifact, which: Which, check: Check)
    ensures
      var best := Latest(artifacts, which, check);
      Latest(artifacts + [a], which, check) ==
      if Selects(which, check, a) && (best.None? || Newer(a, best.value)) then Some(a) else best
  {
    assert (artifacts + [a])[..|artifacts|] == artifacts;
  }

  // What the deletion does not select it does not change.
  lemma {:induction false} OthersKept(artifacts: seq<Artifact>, check: Check, which: Which, other: Check)
    requires other != check || which.Judged?
    ensures Latest(WithoutDecisions(artifacts, check), which, other) == Latest(artifacts, which, other)
  {
    if artifacts != [] {
      var n := |artifacts| - 1;
      OthersKept(artifacts[..n], check, which, other);
      if !Selects(Decided, check, artifacts[n]) {
        LatestLast(WithoutDecisions(artifacts[..n], check), artifacts[n], which, other);
      } else {
        assert WithoutDecisions(artifacts, check) == WithoutDecisions(artifacts[..n], check);
      }
    }
  }

  // With its decisions deleted, a check's newest result is its newest judgment.
  lemma {:induction false} NewestIsJudged(artifacts: seq<Artifact>, check: Check)
    requires forall a :: a in artifacts ==> !Selects(Decided, check, a)
    ensures Latest(artifacts, Every, check) == Latest(artifacts, Judged, check)
  {
    if artifacts != [] {
      NewestIsJudged(artifacts[..|artifacts| - 1], check);
    }
  }

  /* The operations. */

  predicate Reusable(cached: Option<CheckResult>, hash: string, force: bool) {
    && cached.Some? && cached.value.hash == hash
    && (cached.value.override || cached.value.verdict.Ready? || !force)
  }

  function StoreResult(s: State, result: CheckResult, stamp: Stamp): State {
    s.(artifacts := s.artifacts + [Artifact(stamp.id, stamp.now, Some(result))])
  }

  datatype Outcome = Outcome(result: Option<CheckResult>, consulted: bool)

  // What a fresh judgment is stored as.
  function Stamped(judged: CheckResult, hash: string, now: int): CheckResult {
    judged.(hash := hash, checkedAt := now)
  }

  function Evaluate(s: State, check: Check, force: bool, judged: Option<CheckResult>, stamp: Stamp): (State, Outcome) {
    var cached := LatestResult(s.artifacts, Every, check);
    if Reusable(cached, Hash(s.task.spec), force) then (s, Outcome(cached, false))
    else if judged.None? then (s, Outcome(None, true))
    else
      var result := Stamped(judged.value, Hash(s.task.spec), stamp.now);
      (StoreResult(s, result, stamp), Outcome(Some(result), true))
  }

  function CachedResult(s: State, check: Check): Shown {
    var cached := LatestResult(s.artifacts, Every, check);
    if cached.None? then Unchecked(check)
    else Checked(cached.value, cached.value.hash != Hash(s.task.spec), s.task.notes)
  }

  function Unlabelled(labels: seq<string>): seq<string> {
    if labels == [] then []
    else
      var n := |labels| - 1;
      Unlabelled(labels[..n]) + if labels[n] == HUMAN_DECIDED then [] else [labels[n]]
  }

  function Relabelled(labels: seq<string>, decided: bool): seq<string> {
    Unlabelled(labels) + if decided then [HUMAN_DECIDED] else []
  }

  function DecisionOf(s: State, check: Check, person: string, reason: string, stamp: Stamp): CheckResult {
    CheckResult(check, Hash(s.task.spec), Ready, true, person, reason, stamp.now)
  }

  function Relabel(s: State, decided: bool): State {
    s.(task := s.task.(labels := Relabelled(s.task.labels, decided)))
  }

  function Overrule(s: State, check: Check, actor: Actor, reason: string, stamp: Stamp): (State, Result<Shown>) {
    if actor.Agent? then (s, Err(Invalid))
    else
      var result := DecisionOf(s, check, actor.id, reason, stamp);
      (Relabel(StoreResult(s, result, stamp), true), Ok(Checked(result, false, s.task.notes)))
  }

  function Revoke(s: State, check: Check, actor: Actor): (State, Result<Shown>) {
    if actor.Agent? then (s, Err(Invalid))
    else if Latest(s.artifacts, Decided, check).None? then (s, Err(NotFound))
    else
      var next := Relabel(s.(artifacts := WithoutDecisions(s.artifacts, check)), false);
      (next, Ok(CachedResult(next, check)))
  }

  /* What the history means: three facts about each check. */

  datatype Memo = Memo(last: Option<CheckResult>, judged: Option<CheckResult>, decided: bool)

  function View(artifacts: seq<Artifact>, check: Check): Memo {
    Memo(LatestResult(artifacts, Every, check), LatestResult(artifacts, Judged, check),
         Latest(artifacts, Decided, check).Some?)
  }

  datatype Action =
    | RunCheck(check: Check, force: bool, outcome: Option<CheckResult>, stamp: Stamp)
    | DecideCheck(check: Check, actor: Actor, reason: string, stamp: Stamp)
    | ClearCheck(check: Check, actor: Actor)
    | EditTask(task: Subject)

  function Do(s: State, a: Action): State {
    match a
    case RunCheck(check, force, outcome, stamp) => Evaluate(s, check, force, outcome, stamp).0
    case DecideCheck(check, actor, reason, stamp) => Overrule(s, check, actor, reason, stamp).0
    case ClearCheck(check, actor) => Revoke(s, check, actor).0
    case EditTask(task) => s.(task := task)
  }

  // The clock only moves forward and identifiers are new.
  ghost predicate Fresh(s: State, stamp: Stamp) {
    forall a :: a in s.artifacts ==> a.at < stamp.now && a.id != stamp.id
  }

  // A check answers for itself, and only a person overrides.
  predicate Honest(check: Check, outcome: Option<CheckResult>) {
    outcome.Some? ==> outcome.value.check == check && !outcome.value.override
  }

  ghost predicate Enabled(s: State, a: Action) {
    match a
    case RunCheck(check, _, outcome, stamp) => Fresh(s, stamp) && Honest(check, outcome)
    case DecideCheck(_, _, _, stamp) => Fresh(s, stamp)
    case _ => true
  }

  // The same step on the three facts, the history forgotten.
  function MemoStep(m: Memo, check: Check, spec: Spec, a: Action): Memo {
    match a
    case RunCheck(c, force, outcome, stamp) =>
      if c != check || Reusable(m.last, Hash(spec), force) || outcome.None? then m
      else
        var result := Some(Stamped(outcome.value, Hash(spec), stamp.now));
        Memo(result, result, m.decided)
    case DecideCheck(c, actor, reason, stamp) =>
      if c != check || actor.Agent? then m
      else Memo(Some(CheckResult(check, Hash(spec), Ready, true, actor.id, reason, stamp.now)), m.judged, true)
    case ClearCheck(c, actor) =>
      if c != check || actor.Agent? || !m.decided then m else Memo(m.judged, m.judged, false)
    case EditTask(_) => m
  }

  lemma StoreRefines(s: State, result: CheckResult, stamp: Stamp, check: Check)
    requires Fresh(s, stamp)
    ensures
      var m, next := View(s.artifacts, check), View(StoreResult(s, result, stamp).artifacts, check);
      next == if result.check != check then m
              else if result.override then Memo(Some(result), m.judged, true)
              else Memo(Some(result), Some(result), m.decided)
  {
    var a := Artifact(stamp.id, stamp.now, Some(result));
    LatestAppend(s.artifacts, a, Every, check);
    LatestAppend(s.artifacts, a, Judged, check);
    LatestAppend(s.artifacts, a, Decided, check);
  }

  lemma ClearRefines(s: State, cleared: Check, check: Check)
    ensures
      var m := View(s.artifacts, check);
      View(WithoutDecisions(s.artifacts, cleared), check) ==
      if cleared != check then m else Memo(m.judged, m.judged, false)
  {
    if cleared != check {
      OthersKept(s.artifacts, cleared, Every, check);
      OthersKept(s.artifacts, cleared, Judged, check);
      OthersKept(s.artifacts, cleared, Decided, check);
    } else {
      OthersKept(s.artifacts, check, Judged, check);
      NewestIsJudged(WithoutDecisions(s.artifacts, check), check);
    }
  }

  // Each operation on the artifact history is the step on the three facts.
  lemma StepRefines(s: State, a: Action, check: Check)
    requires Enabled(s, a)
    ensures View(Do(s, a).artifacts, check) == MemoStep(View(s.artifacts, check), check, s.task.spec, a)
  {
    match a
    case RunCheck(c, force, outcome, stamp) =>
      if outcome.Some? {
        StoreRefines(s, Stamped(outcome.value, Hash(s.task.spec), stamp.now), stamp, check);
      }
    case DecideCheck(c, actor, reason, stamp) =>
      StoreRefines(s, DecisionOf(s, c, actor.id, reason, stamp), stamp, check);
    case ClearCheck(c, actor) =>
      ClearRefines(s, c, check);
    case EditTask(_) =>
  }

  /* Runs. */

  function DoAll(s: State, run: seq<Action>): State
    decreases run
  {
    if run == [] then s else DoAll(Do(s, run[0]), run[1..])
  }

  ghost predicate Possible(s: State, run: seq<Action>)
    decreases run
  {
    run != [] ==> Enabled(s, run[0]) && Possible(Do(s, run[0]), run[1..])
  }

  function MemoAll(m: Memo, check: Check, s: State, run: seq<Action>): Memo
    decreases run
  {
    if run == [] then m else MemoAll(MemoStep(m, check, s.task.spec, run[0]), check, Do(s, run[0]), run[1..])
  }

  // Over every run the whole history says no more than the three facts.
  lemma {:induction false} HistoryRefinesMemo(s: State, run: seq<Action>, check: Check)
    requires Possible(s, run)
    ensures View(DoAll(s, run).artifacts, check) == MemoAll(View(s.artifacts, check), check, s, run)
    decreases run
  {
    if run != [] {
      StepRefines(s, run[0], check);
      HistoryRefinesMemo(Do(s, run[0]), run[1..], check);
    }
  }

  // The newest result is a decision or a ready verdict on the present content.
  predicate Settled(s: State, check: Check) {
    var last := LatestResult(s.artifacts, Every, check);
    last.Some? && last.value.hash == Hash(s.task.spec) && (last.value.override || last.value.verdict.Ready?)
  }

  // The judged content never changes and this check is never cleared.
  predicate Undisturbed(s: State, run: seq<Action>, check: Check)
    decreases run
  {
    run != [] ==>
      && Do(s, run[0]).task.spec == s.task.spec
      && !(run[0].ClearCheck? && run[0].check == check)
      && Undisturbed(Do(s, run[0]), run[1..], check)
  }

  predicate NobodyDecides(run: seq<Action>, check: Check) {
    run != [] ==> !(run[0].DecideCheck? && run[0].check == check) && NobodyDecides(run[1..], check)
  }

  lemma SettledStep(s: State, a: Action, check: Check)
    requires Enabled(s, a) && Settled(s, check) && Do(s, a).task.spec == s.task.spec
    requires !(a.ClearCheck? && a.check == check)
    ensures Settled(Do(s, a), check)
    ensures !(a.DecideCheck? && a.check == check) ==> SameResult(s, Do(s, a), check)
  {
    StepRefines(s, a, check);
    assert View(s.artifacts, check).last == LatestResult(s.artifacts, Every, check);
    assert View(Do(s, a).artifacts, check).last == LatestResult(Do(s, a).artifacts, Every, check);
  }

  predicate SameResult(s: State, later: State, check: Check) {
    LatestResult(later.artifacts, Every, check) == LatestResult(s.artifacts, Every, check)
  }

  // However it is run, the check is not consulted and the newest result stands.
  lemma SettledNeverConsults(s: State, check: Check)
    requires Settled(s, check)
    ensures forall force, outcome, stamp ::
              Evaluate(s, check, force, outcome, stamp) == (s, Outcome(LatestResult(s.artifacts, Every, check), false))
  {
  }

  lemma {:induction false} StaysSettled(s: State, run: seq<Action>, check: Check)
    requires Possible(s, run) && Undisturbed(s, run, check) && Settled(s, check)
    ensures Settled(DoAll(s, run), check)
    ensures NobodyDecides(run, check) ==> SameResult(s, DoAll(s, run), check)
    decreases run
  {
    if run != [] {
      SettledStep(s, run[0], check);
      StaysSettled(Do(s, run[0]), run[1..], check);
    }
  }

  // While the content is unchanged and nothing is cleared a settled check stays
  // settled: no run of it, forced or not, consults the check again, and only a
  // new decision replaces the result.
  lemma SettledForever(s: State, run: seq<Action>, check: Check)
    requires Possible(s, run) && Undisturbed(s, run, check) && Settled(s, check)
    ensures
      var now := DoAll(s, run);
      && (forall force, outcome, stamp :: Evaluate(now, check, force, outcome, stamp) ==
                                          (now, Outcome(LatestResult(now.artifacts, Every, check), false)))
      && (NobodyDecides(run, check) ==> SameResult(s, now, check))
  {
    StaysSettled(s, run, check);
    SettledNeverConsults(DoAll(s, run), check);
  }

  // Whatever else happens, this check is neither run nor cleared.
  predicate OnlyDecisions(run: seq<Action>, check: Check) {
    run != [] ==> !((run[0].RunCheck? || run[0].ClearCheck?) && run[0].check == check) && OnlyDecisions(run[1..], check)
  }

  predicate JudgmentSince(s: State, later: State, check: Check) {
    var m, n := View(s.artifacts, check), View(later.artifacts, check);
    n.judged == m.judged && (n == m || n.decided)
  }

  lemma JudgmentKept(first: State, s: State, a: Action, check: Check)
    requires Enabled(s, a) && !((a.RunCheck? || a.ClearCheck?) && a.check == check)
    requires JudgmentSince(first, s, check)
    ensures JudgmentSince(first, Do(s, a), check)
  {
    StepRefines(s, a, check);
  }

  lemma {:induction false} DecisionsKeepTheJudgment(first: State, s: State, run: seq<Action>, check: Check)
    requires Possible(s, run) && OnlyDecisions(run, check) && JudgmentSince(first, s, check)
    ensures JudgmentSince(first, DoAll(s, run), check)
    decreases run
  {
    if run != [] {
      JudgmentKept(first, s, run[0], check);
      DecisionsKeepTheJudgment(first, Do(s, run[0]), run[1..], check);
    }
  }

  // However many decisions were stacked and whatever else happened meanwhile,
  // clearing gives back the newest judgment, or leaves the check unchecked.
  lemma ClearUndoesEveryDecision(s: State, run: seq<Action>, check: Check, actor: Actor)
    requires Possible(s, run) && OnlyDecisions(run, check) && actor.Human?
    ensures
      var end := DoAll(s, run);
      var judged := LatestResult(s.artifacts, Judged, check);
      var (next, shown) := Revoke(end, check, actor);
      if Latest(end.artifacts, Decided, check).None? then next == end && shown == Err(NotFound)
      else
        && LatestResult(next.artifacts, Every, check) == judged
        && Latest(next.artifacts, Decided, check).None?
        && shown == Ok(if judged.None? then Unchecked(check)
                       else Checked(judged.value, judged.value.hash != Hash(end.task.spec), end.task.notes))
  {
    var end := DoAll(s, run);
    DecisionsKeepTheJudgment(s, s, run, check);
    ClearRefines(end, check, check);
    var next := Revoke(end, check, actor).0;
    if Latest(end.artifacts, Decided, check).Some? {
      assert View(next.artifacts, check) ==
             Memo(View(s.artifacts, check).judged, View(s.artifacts, check).judged, false);
    }
  }

  // A result becomes stale exactly when the judged content changed since.
  lemma StaleIffContentChanged(s: State, check: Check, spec: Spec)
    requires CachedResult(s, check).Checked? && CachedResult(s, check).result.hash == Hash(spec)
    ensures CachedResult(s, check).stale <==> s.task.spec != spec
  {
    HashIsContent(s.task.spec, spec);
  }

  // The newest result of a check: its own version's, later than every other such
  // result, in time and then by id.
  ghost predicate IsNewest(artifacts: seq<Artifact>, check: Check, a: Artifact) {
    && a in artifacts && a.body.Some? && a.body.value.check == check
    && forall b :: b in artifacts && b.body.Some? && b.body.value.check == check && b != a ==>
         b.at < a.at || (b.at == a.at && !StrLess(a.id, b.id))
  }

  lemma {:induction false} LatestIsNewest(artifacts: seq<Artifact>, check: Check)
    ensures
      var latest := Latest(artifacts, Every, check);
      latest.Some? ==> IsNewest(artifacts, check, latest.value)
  {
    if artifacts != [] {
      var n := |artifacts| - 1;
      LatestIsNewest(artifacts[..n], check);
      assert artifacts == artifacts[..n] + [artifacts[n]];
      NewerIsStrictWeak();
      var best := Latest(artifacts[..n], Every, check);
      if best.Some? && Selects(Every, check, artifacts[n]) {
        StrLessTrichotomy(artifacts[n].id, best.value.id);
        forall b | b in artifacts[..n] && Selects(Every, check, b) && b != best.value && Newer(artifacts[n], best.value)
          ensures b.at < artifacts[n].at || (b.at == artifacts[n].at && !StrLess(artifacts[n].id, b.id))
        {
          StrLessTrichotomy(artifacts[n].id, b.id);
          assert StrictTotal(StrLess) by {
            StrLessStrictTotal();
          }
        }
      }
    }
  }

  lemma NewestIsLatest(artifacts: seq<Artifact>, check: Check, a: Artifact)
    requires DistinctIds(artifacts) && IsNewest(artifacts, check, a)
    ensures Latest(artifacts, Every, check) == Some(a)
  {
    LatestIsNewest(artifacts, check);
    var latest := Latest(artifacts, Every, check).value;
    StrLessTrichotomy(a.id, latest.id);
  }

  // A check is consulted exactly when it has no result, or its newest one is on other
  // content, or it is forced and that result is neither a decision nor ready;
  // unconsulted, the newest result is given as it is.
  lemma ConsultedIff(s: State, check: Check, force: bool, judged: Option<CheckResult>, stamp: Stamp)
    requires DistinctIds(s.artifacts)
    ensures
      var (next, outcome) := Evaluate(s, check, force, judged, stamp);
      && ((forall a :: a in s.artifacts && a.body.Some? ==> a.body.value.check != check) ==> outcome.consulted)
      && (forall a :: IsNewest(s.artifacts, check, a) ==>
            && (outcome.consulted <==>
                || a.body.value.hash != Hash(s.task.spec)
                || (force && !a.body.value.override && !a.body.value.verdict.Ready?))
            && (!outcome.consulted ==> next == s && outcome.result == a.body))
      && (outcome.consulted && judged.None? ==> next == s && outcome.result == None)
      && (outcome.consulted && judged.Some? ==>
            var stored := judged.value.(hash := Hash(s.task.spec), checkedAt := stamp.now);
            && outcome.result == Some(stored)
            && next == s.(artifacts := s.artifacts + [Artifact(stamp.id, stamp.now, Some(stored))]))
  {
    hide Hash, IsNewest;
    forall a | IsNewest(s.artifacts, check, a)
      ensures Latest(s.artifacts, Every, check) == Some(a)
    {
      NewestIsLatest(s.artifacts, check, a);
    }
  }

  // A run that reports a result leaves exactly that result in the cache, current.
  lemma RunThenCached(s: State, check: Check, force: bool, judged: Option<CheckResult>, stamp: Stamp)
    requires Fresh(s, stamp) && Honest(check, judged)
    requires Evaluate(s, check, force, judged, stamp).1.result.Some?
    ensures
      var (next, outcome) := Evaluate(s, check, force, judged, stamp);
      && CachedResult(next, check) == Checked(outcome.result.value, false, s.task.notes)
      && Reusable(Some(outcome.result.value), Hash(next.task.spec), false)
      && next.task == s.task
  {
  }

  /* The label. */

  lemma {:induction false} UnlabelledMembers(labels: seq<string>)
    ensures forall l :: l in Unlabelled(labels) <==> l in labels && l != HUMAN_DECIDED
  {
    if labels != [] {
      var n := |labels| - 1;
      UnlabelledMembers(labels[..n]);
      assert labels == labels[..n] + [labels[n]];
    }
  }

  ghost predicate AnyDecision(s: State) {
    exists a :: a in s.artifacts && a.body.Some? && a.body.value.override
  }

  // The labels but the human-decided one, in their order.
  function OtherLabels(labels: seq<string>): seq<string> {
    if labels == [] then []
    else (if labels[0] == "human-decided" then [] else [labels[0]]) + OtherLabels(labels[1..])
  }

  lemma {:induction false} OtherLabelsConcat(a: seq<string>, b: seq<string>)
    ensures OtherLabels(a + b) == OtherLabels(a) + OtherLabels(b)
  {
    if a == [] {
      assert a + b == b;
    } else {
      assert (a + b)[1..] == a[1..] + b;
      OtherLabelsConcat(a[1..], b);
    }
  }

  lemma {:induction false} UnlabelledIsOthers(labels: seq<string>)
    ensures Unlabelled(labels) == OtherLabels(labels) && OtherLabels(Unlabelled(labels)) == OtherLabels(labels)
  {
    if labels != [] {
      var n := |labels| - 1;
      UnlabelledIsOthers(labels[..n]);
      assert labels == labels[..n] + [labels[n]];
      OtherLabelsConcat(labels[..n], [labels[n]]);
      OtherLabelsConcat(Unlabelled(labels[..n]), if labels[n] == HUMAN_DECIDED then [] else [labels[n]]);
      assert OtherLabels([labels[n]]) == if labels[n] == HUMAN_DECIDED then [] else [labels[n]];
    }
  }

  // A person's decision labels the task human-decided, once and last, and keeps the
  // other labels in their order; an agent is refused and changes nothing.
  lemma DecisionLabels(s: State, check: Check, actor: Actor, reason: string, stamp: Stamp)
    ensures
      var (next, r) := Overrule(s, check, actor, reason, stamp);
      var labels := next.task.labels;
      && (r.Ok? <==> actor.Human?)
      && (r.Err? ==> next == s)
      && (r.Ok? ==>
            && labels != [] && labels[|labels| - 1] == "human-decided"
            && multiset(labels)["human-decided"] == 1
            && OtherLabels(labels) == OtherLabels(s.task.labels)
            && next.task == s.task.(labels := labels))
  {
    var base := Unlabelled(s.task.labels);
    UnlabelledIsOthers(s.task.labels);
    UnlabelledMembers(s.task.labels);
    assert HUMAN_DECIDED !in base;
    OtherLabelsConcat(base, [HUMAN_DECIDED]);
    assert OtherLabels([HUMAN_DECIDED]) == [];
  }

  // Clearing takes the label away and keeps the others in their order.
  lemma ClearingUnlabels(s: State, check: Check, actor: Actor)
    requires Revoke(s, check, actor).1.Ok?
    ensures
      var labels := Revoke(s, check, actor).0.task.labels;
      "human-decided" !in labels && OtherLabels(labels) == OtherLabels(s.task.labels)
  {
    var base := Unlabelled(s.task.labels);
    UnlabelledIsOthers(s.task.labels);
    UnlabelledMembers(s.task.labels);
    assert base + [] == base;
  }

  // No clear of the run is accepted.
  predicate NothingCleared(s: State, run: seq<Action>)
    decreases run
  {
    run != [] ==>
      && (run[0].ClearCheck? ==> Revoke(s, run[0].check, run[0].actor).1.Err?)
      && NothingCleared(Do(s, run[0]), run[1..])
  }

  lemma LabelStaysStep(s: State, a: Action)
    requires HUMAN_DECIDED in s.task.labels && (a.EditTask? ==> a.task.labels == s.task.labels)
    requires a.ClearCheck? ==> Revoke(s, a.check, a.actor).1.Err?
    ensures HUMAN_DECIDED in Do(s, a).task.labels
  {
    UnlabelledMembers(s.task.labels);
  }

  // The label stays over every run until a clear is accepted or the labels are edited.
  lemma {:induction false} LabelStays(s: State, run: seq<Action>)
    requires HUMAN_DECIDED in s.task.labels && LabelsUntouched(s, run) && NothingCleared(s, run)
    ensures HUMAN_DECIDED in DoAll(s, run).task.labels
    decreases run
  {
    if run != [] {
      LabelStaysStep(s, run[0]);
      LabelStays(Do(s, run[0]), run[1..]);
    }
  }

  // The label never stands without some decision, as long as nobody edits it in.
  lemma LabelMeansDecided(s: State, a: Action)
    requires Enabled(s, a)
    requires HUMAN_DECIDED in s.task.labels ==> AnyDecision(s)
    requires a.EditTask? ==> a.task.labels == s.task.labels
    ensures HUMAN_DECIDED in Do(s, a).task.labels ==> AnyDecision(Do(s, a))
  {
    UnlabelledMembers(s.task.labels);
    var next := Do(s, a);
    if a.DecideCheck? && a.actor.Human? {
      assert next.artifacts[|s.artifacts|].body == Some(DecisionOf(s, a.check, a.actor.id, a.reason, a.stamp));
      assert next.artifacts[|s.artifacts|] in next.artifacts;
    } else if HUMAN_DECIDED in next.task.labels && HUMAN_DECIDED in s.task.labels {
      var d :| d in s.artifacts && d.body.Some? && d.body.value.override;
      assert d in next.artifacts;
    }
  }

  // No edit of the run changes the labels.
  predicate LabelsUntouched(s: State, run: seq<Action>)
    decreases run
  {
    run != [] ==>
      && (run[0].EditTask? ==> run[0].task.labels == s.task.labels)
      && LabelsUntouched(Do(s, run[0]), run[1..])
  }

  // Nor does it over any run.
  lemma {:induction false} LabelMeansDecidedAlways(s: State, run: seq<Action>)
    requires Possible(s, run) && LabelsUntouched(s, run)
    requires HUMAN_DECIDED in s.task.labels ==> AnyDecision(s)
    ensures HUMAN_DECIDED in DoAll(s, run).task.labels ==> AnyDecision(DoAll(s, run))
    decreases run
  {
    hide AnyDecision;
    if run != [] {
      LabelMeansDecided(s, run[0]);
      LabelMeansDecidedAlways(Do(s, run[0]), run[1..]);
    }
  }

  // Clearing one check drops the label of the whole task, so afterwards the label
  // tells the truth exactly when no other check's decision is still in force.
  lemma ClearingDropsTheLabel(s: State, check: Check, actor: Actor)
    requires Revoke(s, check, actor).1.Ok?
    ensures
      var next := Revoke(s, check, actor).0;
      && HUMAN_DECIDED !in next.task.labels
      && (AnyDecision(next) <==> exists other :: other != check && Latest(s.artifacts, Decided, other).Some?)
  {
    UnlabelledMembers(s.task.labels);
    var next := Revoke(s, check, actor).0;
    if AnyDecision(next) {
      var d :| d in next.artifacts && d.body.Some? && d.body.value.override;
      var other := d.body.value.check;
      assert d in s.artifacts && !Selects(Decided, check, d) && Selects(Decided, other, d);
      assert other != check && Latest(s.artifacts, Decided, other).Some?;
    }
    if other :| other != check && Latest(s.artifacts, Decided, other).Some? {
      var d := Latest(s.artifacts, Decided, other).value;
      assert d in next.artifacts;
    }
  }

  /* The service over the artifact store. */

  predicate DistinctIds(artifacts: seq<Artifact>) {
    forall i, j :: 0 <= i < j < |artifacts| ==> artifacts[i].id != artifacts[j].id
  }

  lemma {:induction false} KeptDistinct(artifacts: seq<Artifact>, check: Check)
    requires DistinctIds(artifacts)
    ensures DistinctIds(WithoutDecisions(artifacts, check))
  {
    if artifacts != [] {
      var n := |artifacts| - 1;
      KeptDistinct(artifacts[..n], check);
      forall i | 0 <= i < |WithoutDecisions(artifacts[..n], check)|
        ensures WithoutDecisions(artifacts[..n], check)[i].id != artifacts[n].id
      {
        assert WithoutDecisions(artifacts[..n], check)[i] in artifacts[..n];
      }
    }
  }

  // Over every run identifiers stay distinct, so deleting by identifier is exact.
  lemma {:induction false} IdsStayDistinct(s: State, run: seq<Action>)
    requires Possible(s, run) && DistinctIds(s.artifacts)
    ensures DistinctIds(DoAll(s, run).artifacts)
    decreases run
  {
    if run != [] {
      if run[0].ClearCheck? {
        KeptDistinct(s.artifacts, run[0].check);
      }
      IdsStayDistinct(Do(s, run[0]), run[1..]);
    }
  }

  lemma NewerIsStrictWeak()
    ensures StrictWeak(Newer)
  {
    StrLessStrictTotal();
    TotalIsWeak(StrLess);
  }

  function Deleted(artifacts: seq<Artifact>, ids: set<string>): seq<Artifact> {
    if artifacts == [] then []
    else
      var n := |artifacts| - 1;
      Deleted(artifacts[..n], ids) + if artifacts[n].id in ids then [] else [artifacts[n]]
  }

  lemma {:induction false} DeleteOneMore(artifacts: seq<Artifact>, ids: set<string>, id: string)
    ensures Deleted(Deleted(artifacts, ids), {id}) == Deleted(artifacts, ids + {id})
  {
    if artifacts != [] {
      var n := |artifacts| - 1;
      DeleteOneMore(artifacts[..n], ids, id);
      var kept := Deleted(artifacts[..n], ids);
      if artifacts[n].id in ids {
        assert kept + [] == kept;
      } else {
        assert (kept + [artifacts[n]])[..|kept|] == kept;
      }
    }
  }

  lemma {:induction false} DeleteNone(artifacts: seq<Artifact>)
    ensures Deleted(artifacts, {}) == artifacts
  {
    if artifacts != [] {
      DeleteNone(artifacts[..|artifacts| - 1]);
    }
  }

  // Deleting the decisions one identifier at a time deletes just those.
  lemma {:induction false} DeleteDecisions(artifacts: seq<Artifact>, check: Check, ids: set<string>)
    requires forall a :: a in artifacts ==> (a.id in ids <==> Selects(Decided, check, a))
    ensures Deleted(artifacts, ids) == WithoutDecisions(artifacts, check)
  {
    if artifacts != [] {
      DeleteDecisions(artifacts[..|artifacts| - 1], check, ids);
    }
  }

  function IdsOf(found: seq<Artifact>): set<string> {
    set a | a in found :: a.id
  }

  lemma DecisionsFound(artifacts: seq<Artifact>, check: Check, found: seq<Artifact>)
    requires DistinctIds(artifacts)
    requires forall a :: a in found <==> a in artifacts && Selects(Decided, check, a)
    ensures Deleted(artifacts, IdsOf(found)) == WithoutDecisions(artifacts, check)
  {
    DeleteDecisions(artifacts, check, IdsOf(found));
  }

  // The results a run of several checks reports; a failing check reports none.
  function Report(s: State, run: seq<Action>): seq<CheckResult>
    requires forall a :: a in run ==> a.RunCheck?
    decreases run
  {
    if run == [] then []
    else
      var result := Evaluate(s, run[0].check, run[0].force, run[0].outcome, run[0].stamp).1.result;
      (if result.Some? then [result.value] else []) + Report(Do(s, run[0]), run[1..])
  }

  // The first check of a run, and the rest of it.
  lemma RunAhead(s: State, run: seq<Action>)
    requires run != [] && forall a :: a in run ==> a.RunCheck?
    ensures
      var (next, outcome) := Evaluate(s, run[0].check, run[0].force, run[0].outcome, run[0].stamp);
      && DoAll(s, run) == DoAll(next, run[1..])
      && Report(s, run) == (if outcome.result.Some? then [outcome.result.value] else []) + Report(next, run[1..])
  {
    hide Evaluate;
  }

  lemma RunOver(s: State)
    ensures DoAll(s, []) == s && Report(s, []) == []
  {
  }

  class CheckService {
    var artifacts: seq<Artifact>
    var task: Subject

    ghost predicate Valid()
      reads this
    {
      DistinctIds(artifacts)
    }

    ghost function Current(): State
      reads this
    {
      State(artifacts, task)
    }

    method LatestOf(check: Check) returns (best: Option<Artifact>)
      ensures best == Latest(artifacts, Every, check)
    {
      best := None;
      for i := 0 to |artifacts|
        invariant best == Latest(artifacts[..i], Every, check)
      {
        assert artifacts[..i + 1] == artifacts[..i] + [artifacts[i]];
        LatestLast(artifacts[..i], artifacts[i], Every, check);
        var a := artifacts[i];
        if a.body.Some? && a.body.value.check == check {
          if best.None? || Newer(a, best.value) {
            best := Some(a);
          }
        }
      }
      assert artifacts[..|artifacts|] == artifacts;
    }

    // Every decision on the check, the newest first.
    method Overrides(check: Check) returns (found: seq<Artifact>)
      ensures forall a :: a in found <==> a in artifacts && Selects(Decided, check, a)
      ensures Sorted(Newer, found)
      ensures forall a :: multiset(found)[a] == if Selects(Decided, check, a) then multiset(artifacts)[a] else 0
    {
      found := [];
      for i := 0 to |artifacts|
        invariant forall a :: a in found <==> a in artifacts[..i] && Selects(Decided, check, a)
        invariant forall a ::
                    multiset(found)[a] == (if Selects(Decided, check, a) then multiset(artifacts[..i])[a] else 0)
      {
        assert artifacts[..i + 1] == artifacts[..i] + [artifacts[i]];
        if Selects(Decided, check, artifacts[i]) {
          found := found + [artifacts[i]];
        }
      }
      assert artifacts[..|artifacts|] == artifacts;
      ghost var unsorted := found;
      found := SortBy(Newer, found);
      NewerIsStrictWeak();
      SortBySorted(Newer, unsorted);
      SortByPermutes(Newer, unsorted);
      forall a
        ensures a in found <==> a in unsorted
      {
        SortByMembers(Newer, unsorted, a);
      }
    }

    method RunOne(check: Check, force: bool, judged: Option<CheckResult>, stamp: Stamp) returns (outcome: Outcome)
      modifies this
      ensures (Current(), outcome) == Evaluate(old(Current()), check, force, judged, stamp)
    {
      var hash := Hash(task.spec);
      var cached := LatestOf(check);
      if cached.Some? && cached.value.body.value.hash == hash {
        var result := cached.value.body.value;
        if result.override || result.verdict.Ready? || !force {
          return Outcome(Some(result), false);
        }
      }
      if judged.None? {
        return Outcome(None, true);
      }
      var result := judged.value.(hash := hash, checkedAt := stamp.now);
      artifacts := artifacts + [Artifact(stamp.id, stamp.now, Some(result))];
      outcome := Outcome(Some(result), true);
    }

    // Checks are independent: one that fails does not hide the others' results.
    method Run(run: seq<Action>) returns (results: seq<CheckResult>)
      requires forall a :: a in run ==> a.RunCheck?
      modifies this
      ensures Current() == DoAll(old(Current()), run)
      ensures results == Report(old(Current()), run)
    {
      hide Evaluate, DoAll, Report;
      results := [];
      ghost var start := Current();
      for i := 0 to |run|
        invariant DoAll(Current(), run[i..]) == DoAll(start, run)
        invariant results + Report(Current(), run[i..]) == Report(start, run)
      {
        var a := run[i];
        assert run[i..][0] == a && run[i..][1..] == run[i + 1..];
        RunAhead(Current(), run[i..]);
        var outcome := RunOne(a.check, a.force, a.outcome, a.stamp);
        if outcome.result.Some? {
          results := results + [outcome.result.value];
        }
      }
      RunOver(Current());
    }

    method Cached(check: Check) returns (shown: Shown)
      ensures shown == CachedResult(Current(), check)
    {
      var cached := LatestOf(check);
      if cached.None? {
        return Unchecked(check);
      }
      var result := cached.value.body.value;
      shown := Checked(result, result.hash != Hash(task.spec), task.notes);
    }

    method SetHumanDecided(decided: bool)
      modifies this`task
      ensures Current() == Relabel(old(Current()), decided)
    {
      var labels: seq<string> := [];
      for i := 0 to |task.labels|
        invariant labels == Unlabelled(task.labels[..i])
      {
        assert task.labels[..i + 1][..i] == task.labels[..i];
        if task.labels[i] != HUMAN_DECIDED {
          labels := labels + [task.labels[i]];
        } else {
          assert labels + [] == labels;
        }
      }
      assert task.labels[..|task.labels|] == task.labels;
      if decided {
        labels := labels + [HUMAN_DECIDED];
      } else {
        assert labels + [] == labels;
      }
      if labels == task.labels {
        return;
      }
      task := task.(labels := labels);
    }

    method Decide(check: Check, actor: Actor, reason: string, stamp: Stamp) returns (r: Result<Shown>)
      modifies this
      ensures (Current(), r) == Overrule(old(Current()), check, actor, reason, stamp)
    {
      if actor.Agent? {
        return Err(Invalid);
      }
      var result := CheckResult(check, Hash(task.spec), Ready, true, actor.id, reason, stamp.now);
      artifacts := artifacts + [Artifact(stamp.id, stamp.now, Some(result))];
      SetHumanDecided(true);
      r := Ok(Checked(result, false, task.notes));
    }

    method Delete(id: string)
      modifies this`artifacts
      ensures artifacts == Deleted(old(artifacts), {id})
    {
      var kept: seq<Artifact> := [];
      for i := 0 to |artifacts|
        invariant artifacts == old(artifacts)
        invariant kept == Deleted(artifacts[..i], {id})
      {
        assert artifacts[..i + 1][..i] == artifacts[..i];
        if artifacts[i].id != id {
          kept := kept + [artifacts[i]];
        } else {
          assert kept + [] == kept;
        }
      }
      assert artifacts[..|artifacts|] == artifacts;
      artifacts := kept;
    }

    method DeleteAll(found: seq<Artifact>)
      modifies this`artifacts
      ensures artifacts == Deleted(old(artifacts), IdsOf(found))
    {
      DeleteNone(artifacts);
      assert IdsOf(found[..0]) == {};
      for i := 0 to |found|
        invariant artifacts == Deleted(old(artifacts), IdsOf(found[..i]))
      {
        Delete(found[i].id);
        DeleteOneMore(old(artifacts), IdsOf(found[..i]), found[i].id);
        assert IdsOf(found[..i + 1]) == IdsOf(found[..i]) + {found[i].id};
      }
      assert found[..|found|] == found;
    }

    // Deletes every decision, not just the newest, so no older one resurfaces.
    method ClearDecision(check: Check, actor: Actor) returns (r: Result<Shown>)
      requires Valid()
      modifies this
      ensures (Current(), r) == Revoke(old(Current()), check, actor)
    {
      if actor.Agent? {
        return Err(Invalid);
      }
      var found := Overrides(check);
      if |found| == 0 {
        assert forall a :: a in artifacts ==> !Selects(Decided, check, a);
        return Err(NotFound);
      }
      assert found[0] in artifacts && Selects(Decided, check, found[0]);
      DecisionsFound(artifacts, check, found);
      DeleteAll(found);
      SetHumanDecided(false);
      var shown := Cached(check);
      r := Ok(shown);
    }
  }
}
