/**
 Applying a task document: each mergeable field is merged three ways against the
 revision the document was derived from and the stored task.
 */
module TaskMerge {
  import opened Tickets

  datatype Values = Values(
    kind: string, status: string, repo: string, title: string, description: string,
    priority: int, groomed: bool, labels: seq<string>, criteria: seq<string>, notBefore: Option<int>)

  // Fields other commands manage; a document may only echo them.
  datatype Managed = Managed(
    assignee: string, deps: seq<string>, waitingOn: seq<string>, notes: seq<(string, string)>, snooze: Option<string>)

  datatype Stored = Stored(id: string, project: string, values: Values, managed: Managed, updatedAt: int)

  datatype Base = Base(
    kind: Option<string>, status: Option<string>, repo: Option<string>,
    title: Option<string>, description: Option<string>,
    priority: Option<int>, groomed: Option<bool>, labels: Option<seq<string>>, criteria: Option<seq<string>>,
    notBefore: Option<int>, assignee: Option<string>, deps: Option<seq<string>>, waitingOn: Option<seq<string>>,
    notes: seq<(string, string)>, snooze: Option<string>)

  datatype Doc = Doc(
    id: Option<string>, project: Option<string>,
    kind: Option<string>, status: Option<string>, repo: Option<string>,
    title: Option<string>, description: Option<string>,
    priority: Option<int>, groomed: Option<bool>, labels: Option<seq<string>>, criteria: Option<seq<string>>,
    notBefore: Option<int>, assignee: Option<string>, deps: Option<seq<string>>, waitingOn: Option<seq<string>>,
    notes: Option<seq<(string, string)>>, snooze: Option<string>, base: Option<Base>, updatedAt: Option<int>)

  // A partial update: a missing field is left unchanged.
  datatype TicketSet = TicketSet(
    kind: Option<string>, status: Option<string>, repo: Option<string>,
    title: Option<string>, description: Option<string>,
    priority: Option<int>, groomed: Option<bool>, labels: Option<seq<string>>, criteria: Option<seq<string>>,
    notBefore: Option<int>, expected: Option<int>)

  datatype Applied = Set(update: TicketSet) | Rejected | Conflicting(fields: seq<string>)

  /* Comparisons. */

  // Labels are compared as multisets.
  predicate SameLabels(a: seq<string>, b: seq<string>) {
    multiset(a) == multiset(b)
  }

  // The counting loop is exactly multiset equality.
  method EqualStringSet(provided: Option<seq<string>>, current: seq<string>) returns (equal: bool)
    ensures equal <==> provided.None? || SameLabels(provided.value, current)
  {
    if provided.None? {
      return true;
    }
    var list := provided.value;
    if |list| != |current| {
      assert |multiset(list)| != |multiset(current)|;
      return false;
    }
    var counts: map<string, int> := map[];
    for i := 0 to |current|
      invariant Tallies(counts, multiset(current[..i]), multiset{})
    {
      OneMore(current, i);
      CountOne(counts, multiset(current[..i]), current[i]);
      counts := counts[current[i] := Count(counts, current[i]) + 1];
    }
    assert current[..|current|] == current;
    for i := 0 to |list|
      invariant Tallies(counts, multiset(current), multiset(list[..i]))
    {
      var value := list[i];
      OneMore(list, i);
      var left := Count(counts, value) - 1;
      if left < 0 {
        Overdrawn(counts, list, current, i);
        return false;
      }
      UseOne(counts, multiset(current), multiset(list[..i]), value);
      counts := counts[value := left];
    }
    assert list[..|list|] == list;
    UsedUp(counts, list, current);
    equal := true;
  }

  lemma OneMore(s: seq<string>, i: nat)
    requires i < |s|
    ensures multiset(s[..i + 1]) == multiset(s[..i]) + multiset{s[i]}
  {
    assert s[..i + 1] == s[..i] + [s[i]];
  }

  lemma Overdrawn(counts: map<string, int>, list: seq<string>, current: seq<string>, i: nat)
    requires i < |list| && Tallies(counts, multiset(current), multiset(list[..i])) && Count(counts, list[i]) <= 0
    ensures multiset(list) != multiset(current)
  {
    assert Count(counts, list[i]) + multiset(list[..i])[list[i]] == multiset(current)[list[i]];
    OneMore(list, i);
    assert list == list[..i + 1] + list[i + 1..];
    assert multiset(list)[list[i]] == multiset(list[..i + 1])[list[i]] + multiset(list[i + 1..])[list[i]];
  }

  lemma UsedUp(counts: map<string, int>, list: seq<string>, current: seq<string>)
    requires |list| == |current| && Tallies(counts, multiset(current), multiset(list))
    ensures multiset(list) == multiset(current)
  {
    forall v
      ensures multiset(list)[v] <= multiset(current)[v]
    {
      assert Count(counts, v) + multiset(list)[v] == multiset(current)[v];
    }
    EqualSizeSubset(multiset(list), multiset(current));
  }

  function Count(counts: map<string, int>, v: string): int {
    if v in counts then counts[v] else 0
  }

  // The counters hold what is in have and not yet in used.
  ghost predicate Tallies(counts: map<string, int>, have: multiset<string>, used: multiset<string>) {
    forall v :: Count(counts, v) >= 0 && Count(counts, v) + used[v] == have[v]
  }

  lemma CountOne(counts: map<string, int>, have: multiset<string>, value: string)
    requires Tallies(counts, have, multiset{})
    ensures Tallies(counts[value := Count(counts, value) + 1], have + multiset{value}, multiset{})
  {
    forall v
      ensures Count(counts[value := Count(counts, value) + 1], v) == (have + multiset{value})[v]
    {
      assert Count(counts, v) == have[v];
    }
  }

  lemma UseOne(counts: map<string, int>, have: multiset<string>, used: multiset<string>, value: string)
    requires Tallies(counts, have, used) && Count(counts, value) > 0
    ensures Tallies(counts[value := Count(counts, value) - 1], have, used + multiset{value})
  {
    var next, spent := counts[value := Count(counts, value) - 1], used + multiset{value};
    forall v
      ensures Count(next, v) >= 0 && Count(next, v) + spent[v] == have[v]
    {
      assert Count(counts, v) + used[v] == have[v];
    }
  }

  lemma EqualSizeSubset(a: multiset<string>, b: multiset<string>)
    requires a <= b && |a| == |b|
    ensures a == b
  {
    assert b == a + (b - a);
    assert |b| == |a| + |b - a|;
  }

  /* One field. */

  datatype Change<T> = Keep | Take(value: T) | Clash

  function MergeScalar<T(==)>(ours: Option<T>, base: T, theirs: T): Change<T> {
    if ours.None? then Keep
    else if ours.value == base then Keep
    else if ours.value == theirs then Keep
    else if theirs != base then Clash
    else Take(ours.value)
  }

  function MergeStringSet(ours: Option<seq<string>>, base: seq<string>, theirs: seq<string>): Change<seq<string>> {
    if ours.None? then Keep
    else if SameLabels(ours.value, base) then Keep
    else if SameLabels(ours.value, theirs) then Keep
    else if !SameLabels(theirs, base) then Clash
    else Take(ours.value)
  }

  function MergeTime(ours: Option<int>, base: Option<int>, theirs: Option<int>): Change<Option<int>> {
    if ours.None? then Keep
    else if ours == base then Keep
    else if ours == theirs then Keep
    else if theirs != base then Clash
    else Take(ours)
  }

  /* The whole document. */

  function Deref(value: Option<string>): string {
    if value.Some? then value.value else ""
  }

  function DerefList(value: Option<seq<string>>): seq<string> {
    if value.Some? then value.value else []
  }

  // Without a base block the stored task is the base; with one, a missing field
  // means the base carried no value, except priority and groomed.
  function BaseValues(doc: Doc, current: Stored): Values {
    match doc.base
    case None => current.values
    case Some(b) =>
      Values(
        Deref(b.kind), Deref(b.status), Deref(b.repo), Deref(b.title), Deref(b.description),
        if b.priority.Some? then b.priority.value else current.values.priority,
        if b.groomed.Some? then b.groomed.value else current.values.groomed,
        DerefList(b.labels), DerefList(b.criteria), b.notBefore)
  }

  function BaseManaged(doc: Doc, current: Stored): Managed {
    match doc.base
    case None => current.managed
    case Some(b) => Managed(Deref(b.assignee), DerefList(b.deps), DerefList(b.waitingOn), b.notes, b.snooze)
  }

  datatype Changes = Changes(
    kind: Change<string>, status: Change<string>, repo: Change<string>,
    title: Change<string>, description: Change<string>,
    priority: Change<int>, groomed: Change<bool>, labels: Change<seq<string>>, criteria: Change<seq<string>>,
    notBefore: Change<Option<int>>)

  function MergeAll(doc: Doc, base: Values, theirs: Values): Changes {
    Changes(
      MergeScalar(doc.kind, base.kind, theirs.kind), MergeScalar(doc.status, base.status, theirs.status),
      MergeScalar(doc.repo, base.repo, theirs.repo), MergeScalar(doc.title, base.title, theirs.title),
      MergeScalar(doc.description, base.description, theirs.description),
      MergeScalar(doc.priority, base.priority, theirs.priority), MergeScalar(doc.groomed, base.groomed, theirs.groomed),
      MergeStringSet(doc.labels, base.labels, theirs.labels), MergeScalar(doc.criteria, base.criteria, theirs.criteria),
      MergeTime(doc.notBefore, base.notBefore, theirs.notBefore))
  }

  const KINDS := {"task", "milestone", "idea", "bug"}
  const STATUSES := {"todo", "in_progress", "blocked", "ready_for_review", "done", "cancelled"}

  // The document echoes what it must not change.
  predicate Echoes(doc: Doc, current: Stored) {
    var managed := BaseManaged(doc, current);
    && (doc.id.Some? ==> doc.id.value == current.id)
    && (doc.project.Some? ==> doc.project.value == current.project)
    && (doc.assignee.Some? ==> doc.assignee.value == managed.assignee)
    && (doc.deps.Some? ==> SameLabels(doc.deps.value, managed.deps))
    && (doc.waitingOn.Some? ==> SameLabels(doc.waitingOn.value, managed.waitingOn))
    && (doc.notes.Some? ==> doc.notes.value == managed.notes)
    && (doc.snooze.Some? ==> doc.snooze == managed.snooze)
  }

  // The kind and status it would write are known ones.
  predicate KnownNames(c: Changes) {
    && (c.kind.Take? ==> c.kind.value in KINDS)
    && (c.status.Take? ==> c.status.value in STATUSES)
  }

  predicate Acceptable(doc: Doc, current: Stored) {
    Echoes(doc, current) && KnownNames(MergeAll(doc, BaseValues(doc, current), current.values))
  }

  function Named<T>(change: Change<T>, name: string): seq<string> {
    if change.Clash? then [name] else []
  }

  function Clashes(c: Changes): seq<string> {
    Named(c.kind, "kind") + Named(c.status, "status") + Named(c.repo, "repo") + Named(c.title, "title")
    + Named(c.description, "description") + Named(c.priority, "priority") + Named(c.groomed, "groomed")
    + Named(c.labels, "labels") + Named(c.criteria, "acceptance_criteria") + Named(c.notBefore, "not_before")
  }

  function Taken<T>(change: Change<T>): Option<T> {
    if change.Take? then Some(change.value) else None
  }

  function Expectation(doc: Doc, current: Stored): Option<int> {
    if doc.base.Some? then Some(current.updatedAt) else doc.updatedAt
  }

  function SetOf(c: Changes, expected: Option<int>): TicketSet {
    TicketSet(Taken(c.kind), Taken(c.status), Taken(c.repo), Taken(c.title), Taken(c.description),
              Taken(c.priority), Taken(c.groomed), Taken(c.labels), Taken(c.criteria),
              if c.notBefore.Take? then c.notBefore.value else None, expected)
  }

  function TaskSetOf(doc: Doc, current: Stored): Applied {
    var changes := MergeAll(doc, BaseValues(doc, current), current.values);
    if !Acceptable(doc, current) then Rejected
    else if Clashes(changes) != [] then Conflicting(Clashes(changes))
    else Set(SetOf(changes, Expectation(doc, current)))
  }

  method CheckEchoes(doc: Doc, current: Stored) returns (ok: bool)
    ensures ok <==> Echoes(doc, current)
  {
    if doc.id.Some? && doc.id.value != current.id {
      return false;
    }
    if doc.project.Some? && doc.project.value != current.project {
      return false;
    }
    var managed := BaseManaged(doc, current);
    if doc.assignee.Some? && doc.assignee.value != managed.assignee {
      return false;
    }
    var sameDeps := EqualStringSet(doc.deps, managed.deps);
    if !sameDeps {
      return false;
    }
    var sameWaiting := EqualStringSet(doc.waitingOn, managed.waitingOn);
    if !sameWaiting {
      return false;
    }
    if doc.notes.Some? && doc.notes.value != managed.notes {
      return false;
    }
    ok := doc.snooze.Some? ==> doc.snooze == managed.snooze;
  }

  method TaskSet(doc: Doc, current: Stored) returns (applied: Applied)
    ensures applied == TaskSetOf(doc, current)
  {
    var echoes := CheckEchoes(doc, current);
    if !echoes {
      return Rejected;
    }
    var changes := MergeAll(doc, BaseValues(doc, current), current.values);
    var update := TicketSet(None, None, None, None, None, None, None, None, None, None, None);
    var conflicts: seq<string> := [];
    if changes.kind.Clash? {
      conflicts := conflicts + ["kind"];
    } else if changes.kind.Take? {
      if changes.kind.value !in KINDS {
        return Rejected;
      }
      update := update.(kind := Some(changes.kind.value));
    }
    if changes.status.Clash? {
      conflicts := conflicts + ["status"];
    } else if changes.status.Take? {
      if changes.status.value !in STATUSES {
        return Rejected;
      }
      update := update.(status := Some(changes.status.value));
    }
    assert conflicts == Named(changes.kind, "kind") + Named(changes.status, "status");
    conflicts, update := conflicts + Named(changes.repo, "repo"), update.(repo := Taken(changes.repo));
    conflicts, update := conflicts + Named(changes.title, "title"), update.(title := Taken(changes.title));
    conflicts, update := conflicts + Named(changes.description, "description"),
      update.(description := Taken(changes.description));
    conflicts, update := conflicts + Named(changes.priority, "priority"), update.(priority := Taken(changes.priority));
    conflicts, update := conflicts + Named(changes.groomed, "groomed"), update.(groomed := Taken(changes.groomed));
    conflicts, update := conflicts + Named(changes.labels, "labels"), update.(labels := Taken(changes.labels));
    conflicts, update := conflicts + Named(changes.criteria, "acceptance_criteria"),
      update.(criteria := Taken(changes.criteria));
    conflicts := conflicts + Named(changes.notBefore, "not_before");
    update := update.(notBefore := if changes.notBefore.Take? then changes.notBefore.value else None);
    if |conflicts| > 0 {
      return Conflicting(conflicts);
    }
    update := update.(expected := Expectation(doc, current));
    applied := Set(update);
  }

  /* What applying the update gives. */

  function Given<T>(field: Option<T>, current: T): T {
    if field.Some? then field.value else current
  }

  function ApplySet(v: Values, update: TicketSet): Values {
    Values(
      Given(update.kind, v.kind), Given(update.status, v.status), Given(update.repo, v.repo),
      Given(update.title, v.title), Given(update.description, v.description), Given(update.priority, v.priority),
      Given(update.groomed, v.groomed), Given(update.labels, v.labels), Given(update.criteria, v.criteria),
      if update.notBefore.Some? then update.notBefore else v.notBefore)
  }

  /* The specification: one rule for every mergeable field. */

  datatype Field =
    | KindField | StatusField | RepoField | TitleField | DescriptionField
    | PriorityField | GroomedField | LabelsField | CriteriaField | NotBeforeField

  datatype Value = Text(text: string) | Number(number: int) | Flag(flag: bool)
    | List(items: seq<string>) | Time(time: Option<int>)

  function Of(v: Values, f: Field): Value {
    match f
    case KindField => Text(v.kind)
    case StatusField => Text(v.status)
    case RepoField => Text(v.repo)
    case TitleField => Text(v.title)
    case DescriptionField => Text(v.description)
    case PriorityField => Number(v.priority)
    case GroomedField => Flag(v.groomed)
    case LabelsField => List(v.labels)
    case CriteriaField => List(v.criteria)
    case NotBeforeField => Time(v.notBefore)
  }

  function Supplied(doc: Doc, f: Field): Option<Value> {
    match f
    case KindField => if doc.kind.Some? then Some(Text(doc.kind.value)) else None
    case StatusField => if doc.status.Some? then Some(Text(doc.status.value)) else None
    case RepoField => if doc.repo.Some? then Some(Text(doc.repo.value)) else None
    case TitleField => if doc.title.Some? then Some(Text(doc.title.value)) else None
    case DescriptionField => if doc.description.Some? then Some(Text(doc.description.value)) else None
    case PriorityField => if doc.priority.Some? then Some(Number(doc.priority.value)) else None
    case GroomedField => if doc.groomed.Some? then Some(Flag(doc.groomed.value)) else None
    case LabelsField => if doc.labels.Some? then Some(List(doc.labels.value)) else None
    case CriteriaField => if doc.criteria.Some? then Some(List(doc.criteria.value)) else None
    case NotBeforeField => if doc.notBefore.Some? then Some(Time(doc.notBefore)) else None
  }

  // Only labels are compared without regard to order.
  predicate Same(f: Field, a: Value, b: Value) {
    if f.LabelsField? && a.List? && b.List? then SameLabels(a.items, b.items) else a == b
  }

  // The document changed the field away from its base.
  predicate Touches(doc: Doc, f: Field, base: Values) {
    Supplied(doc, f).Some? && !Same(f, Supplied(doc, f).value, Of(base, f))
  }

  // Both sides changed the field, to different values.
  predicate Diverges(doc: Doc, f: Field, base: Values, theirs: Values) {
    Touches(doc, f, base) && !Same(f, Of(theirs, f), Of(base, f)) && !Same(f, Supplied(doc, f).value, Of(theirs, f))
  }

  // The document's value where only the document changed the field, the stored
  // value everywhere else.
  function Merged(doc: Doc, f: Field, base: Values, theirs: Values): Value {
    if Touches(doc, f, base) && Same(f, Of(theirs, f), Of(base, f)) && !Same(f, Supplied(doc, f).value, Of(theirs, f))
    then Supplied(doc, f).value
    else Of(theirs, f)
  }

  ghost predicate AnyDiverges(doc: Doc, base: Values, theirs: Values) {
    exists f :: Diverges(doc, f, base, theirs)
  }

  ghost predicate IsMerge(result: Values, doc: Doc, base: Values, theirs: Values) {
    forall f :: Of(result, f) == Merged(doc, f, base, theirs)
  }

  predicate Clashed(c: Changes, f: Field) {
    match f
    case KindField => c.kind.Clash?
    case StatusField => c.status.Clash?
    case RepoField => c.repo.Clash?
    case TitleField => c.title.Clash?
    case DescriptionField => c.description.Clash?
    case PriorityField => c.priority.Clash?
    case GroomedField => c.groomed.Clash?
    case LabelsField => c.labels.Clash?
    case CriteriaField => c.criteria.Clash?
    case NotBeforeField => c.notBefore.Clash?
  }

  lemma SomeClash(c: Changes)
    ensures Clashes(c) != [] <==> exists f :: Clashed(c, f)
  {
    assert |Clashes(c)| == |Named(c.kind, "kind")| + |Named(c.status, "status")| + |Named(c.repo, "repo")|
                           + |Named(c.title, "title")| + |Named(c.description, "description")|
                           + |Named(c.priority, "priority")|
                           + |Named(c.groomed, "groomed")| + |Named(c.labels, "labels")|
                           + |Named(c.criteria, "acceptance_criteria")| + |Named(c.notBefore, "not_before")|;
    if Clashes(c) != [] {
      assert Clashed(c, KindField) || Clashed(c, StatusField) || Clashed(c, RepoField) || Clashed(c, TitleField)
          || Clashed(c, DescriptionField) || Clashed(c, PriorityField)
          || Clashed(c, GroomedField) || Clashed(c, LabelsField)
          || Clashed(c, CriteriaField) || Clashed(c, NotBeforeField);
    }
  }

  lemma ClashRule(doc: Doc, f: Field, base: Values, theirs: Values)
    ensures Clashed(MergeAll(doc, base, theirs), f) <==> Diverges(doc, f, base, theirs)
  {
    match f
    case KindField =>
    case StatusField =>
    case RepoField =>
    case TitleField =>
    case DescriptionField =>
    case PriorityField =>
    case GroomedField =>
    case LabelsField =>
    case CriteriaField =>
    case NotBeforeField =>
  }

  lemma ValueRule(doc: Doc, f: Field, base: Values, theirs: Values, expected: Option<int>)
    ensures Of(ApplySet(theirs, SetOf(MergeAll(doc, base, theirs), expected)), f) == Merged(doc, f, base, theirs)
  {
    hide SameLabels;
    var c := MergeAll(doc, base, theirs);
    var result := ApplySet(theirs, SetOf(c, expected));
    match f
    case KindField => assert result.kind == Given(Taken(c.kind), theirs.kind);
    case StatusField => assert result.status == Given(Taken(c.status), theirs.status);
    case RepoField => assert result.repo == Given(Taken(c.repo), theirs.repo);
    case TitleField => assert result.title == Given(Taken(c.title), theirs.title);
    case DescriptionField => assert result.description == Given(Taken(c.description), theirs.description);
    case PriorityField => assert result.priority == Given(Taken(c.priority), theirs.priority);
    case GroomedField => assert result.groomed == Given(Taken(c.groomed), theirs.groomed);
    case LabelsField => assert result.labels == Given(Taken(c.labels), theirs.labels);
    case CriteriaField => assert result.criteria == Given(Taken(c.criteria), theirs.criteria);
    case NotBeforeField =>
  }

  // A conflict is reported exactly when some field diverged, and otherwise the
  // update gives the per-field merge.
  lemma MergeMeetsItsSpecification(doc: Doc, current: Stored)
    requires Acceptable(doc, current)
    ensures
      var base := BaseValues(doc, current);
      && (TaskSetOf(doc, current).Conflicting? <==> AnyDiverges(doc, base, current.values))
      && (TaskSetOf(doc, current).Set? ==>
            IsMerge(ApplySet(current.values, TaskSetOf(doc, current).update), doc, base, current.values))
  {
    var base, theirs := BaseValues(doc, current), current.values;
    var changes := MergeAll(doc, base, theirs);
    SomeClash(changes);
    forall f
      ensures Clashed(changes, f) <==> Diverges(doc, f, base, theirs)
    {
      ClashRule(doc, f, base, theirs);
    }
    forall f
      ensures Of(ApplySet(theirs, SetOf(changes, Expectation(doc, current))), f) == Merged(doc, f, base, theirs)
    {
      ValueRule(doc, f, base, theirs, Expectation(doc, current));
    }
  }

  // Without a base block a document can never conflict.
  lemma NoBaseNeverConflicts(doc: Doc, current: Stored)
    requires doc.base.None?
    ensures !TaskSetOf(doc, current).Conflicting?
  {
  }

  /* Two documents from one base. */

  // Where both documents write the field, they write the very same value.
  predicate AgreeOn(one: Doc, two: Doc, f: Field, base: Values) {
    Touches(one, f, base) && Touches(two, f, base) ==> Supplied(one, f) == Supplied(two, f)
  }

  ghost predicate AgreeWhereBothWrite(one: Doc, two: Doc, base: Values) {
    forall f :: AgreeOn(one, two, f, base)
  }

  ghost predicate DisjointWrites(one: Doc, two: Doc, base: Values) {
    forall f :: !(Touches(one, f, base) && Touches(two, f, base))
  }

  // One field under both orders: it diverges in both or neither, and if it does
  // not, the orders give the same value exactly when the documents agree on it.
  lemma FieldOrders(one: Doc, two: Doc, f: Field, base: Values, a: Values, b: Values)
    requires Of(a, f) == Merged(one, f, base, base) && Of(b, f) == Merged(two, f, base, base)
    ensures Diverges(two, f, base, a) <==> Diverges(one, f, base, b)
    ensures Diverges(two, f, base, a) ==> !AgreeOn(one, two, f, base)
    ensures !Diverges(two, f, base, a) ==>
              (Merged(two, f, base, a) == Merged(one, f, base, b) <==> AgreeOn(one, two, f, base))
    ensures !Diverges(two, f, base, a) ==> Same(f, Merged(two, f, base, a), Merged(one, f, base, b))
  {
  }

  lemma SameFields(v: Values, w: Values)
    ensures (forall f :: Of(v, f) == Of(w, f)) <==> v == w
  {
    if forall f :: Of(v, f) == Of(w, f) {
      assert Of(v, KindField) == Of(w, KindField) && Of(v, StatusField) == Of(w, StatusField);
      assert Of(v, RepoField) == Of(w, RepoField) && Of(v, TitleField) == Of(w, TitleField);
      assert Of(v, DescriptionField) == Of(w, DescriptionField) && Of(v, PriorityField) == Of(w, PriorityField);
      assert Of(v, GroomedField) == Of(w, GroomedField) && Of(v, LabelsField) == Of(w, LabelsField);
      assert Of(v, CriteriaField) == Of(w, CriteriaField) && Of(v, NotBeforeField) == Of(w, NotBeforeField);
    }
  }

  /* Saving one document. */

  // The document merged with the task as read, and written over the task as it is
  // stored by then. The store compares the revision the update expects, if any.
  function Save(doc: Doc, read: Stored, s: Stored, now: int): Option<Stored> {
    match TaskSetOf(doc, read)
    case Set(update) =>
      if update.expected.Some? && update.expected.value != s.updatedAt then None
      else Some(s.(values := ApplySet(s.values, update), updatedAt := now))
    case _ => None
  }

  // With nobody writing in between.
  function Apply(doc: Doc, s: Stored, now: int): Option<Stored> {
    Save(doc, s, s, now)
  }

  // The base block a document got with the task carries: every field, the optional
  // ones as they stand.
  function SnapshotOf(s: Stored): Base {
    Base(
      kind := Some(s.values.kind), status := Some(s.values.status), repo := Some(s.values.repo),
      title := Some(s.values.title), description := Some(s.values.description),
      priority := Some(s.values.priority), groomed := Some(s.values.groomed), labels := Some(s.values.labels),
      criteria := Some(s.values.criteria), notBefore := s.values.notBefore,
      assignee := if s.managed.assignee == "" then None else Some(s.managed.assignee),
      deps := Some(s.managed.deps), waitingOn := Some(s.managed.waitingOn), notes := s.managed.notes,
      snooze := s.managed.snooze)
  }

  predicate DerivedFrom(doc: Doc, s: Stored) {
    doc.base == Some(SnapshotOf(s))
  }

  // A snapshot reads back as the task it was taken of, whatever is stored by then.
  lemma SnapshotReadsBack(doc: Doc, s: Stored, current: Stored)
    requires DerivedFrom(doc, s)
    ensures BaseValues(doc, current) == s.values && BaseManaged(doc, current) == s.managed
  {
  }

  // Field by field, the base of a document with a base block is the block's own
  // field; a missing one reads as empty, a missing priority or groomed as stored.
  lemma BaseBlockIsTheBase(doc: Doc, current: Stored)
    requires doc.base.Some?
    ensures
      var b, v := doc.base.value, BaseValues(doc, current);
      && Some(v.kind) == (if b.kind.Some? then b.kind else Some(""))
      && Some(v.status) == (if b.status.Some? then b.status else Some(""))
      && Some(v.repo) == (if b.repo.Some? then b.repo else Some(""))
      && Some(v.title) == (if b.title.Some? then b.title else Some(""))
      && Some(v.description) == (if b.description.Some? then b.description else Some(""))
      && Some(v.labels) == (if b.labels.Some? then b.labels else Some([]))
      && Some(v.criteria) == (if b.criteria.Some? then b.criteria else Some([]))
      && Some(v.priority) == (if b.priority.Some? then b.priority else Some(current.values.priority))
      && Some(v.groomed) == (if b.groomed.Some? then b.groomed else Some(current.values.groomed))
      && v.notBefore == b.notBefore
  {
  }

  // Saving a document over the very task it was derived from never conflicts, and
  // gives its value in every field it supplies and the stored one elsewhere.
  lemma QuietSave(doc: Doc, s: Stored, now: int)
    requires DerivedFrom(doc, s) && Acceptable(doc, s)
    ensures
      var saved := Apply(doc, s, now);
      && saved.Some?
      && saved.value == s.(values := saved.value.values, updatedAt := now)
      && forall f :: Same(f, Of(saved.value.values, f),
                          if Supplied(doc, f).Some? then Supplied(doc, f).value else Of(s.values, f))
  {
    hide Merged, Diverges, Supplied, Same, Of, DerivedFrom, BaseValues, ApplySet, Acceptable;
    SnapshotReadsBack(doc, s, s);
    MergeMeetsItsSpecification(doc, s);
    forall f
      ensures !Diverges(doc, f, s.values, s.values)
      ensures Same(f, Merged(doc, f, s.values, s.values),
                   if Supplied(doc, f).Some? then Supplied(doc, f).value else Of(s.values, f))
    {
      QuietField(doc, f, s.values);
    }
    SetExpectsRevision(doc, s);
  }

  lemma QuietField(doc: Doc, f: Field, base: Values)
    ensures !Diverges(doc, f, base, base)
    ensures Same(f, Merged(doc, f, base, base), if Supplied(doc, f).Some? then Supplied(doc, f).value else Of(base, f))
  {
  }

  // The update of a task read just now expects the revision that is stored.
  lemma SetExpectsRevision(doc: Doc, s: Stored)
    requires TaskSetOf(doc, s).Set? && DerivedFrom(doc, s)
    ensures TaskSetOf(doc, s).update.expected == Some(s.updatedAt)
  {
  }

  // The revision check: a document with a base block is written only over the
  // revision it was merged with, one without only over the revision it names, if any.
  lemma NoLostUpdate(doc: Doc, read: Stored, s: Stored, now: int)
    requires TaskSetOf(doc, read).Set?
    ensures Save(doc, read, s, now).Some? <==>
            if doc.base.Some? then s.updatedAt == read.updatedAt
            else doc.updatedAt == None || doc.updatedAt == Some(s.updatedAt)
    ensures Save(doc, read, s, now).Some? && s == read ==>
              IsMerge(Save(doc, read, s, now).value.values, doc, BaseValues(doc, s), s.values)
  {
    MergeMeetsItsSpecification(doc, read);
  }

  const FIELDS := [KindField, StatusField, RepoField, TitleField, DescriptionField,
                   PriorityField, GroomedField, LabelsField, CriteriaField, NotBeforeField]

  function NameOf(f: Field): string {
    match f
    case KindField => "kind"
    case StatusField => "status"
    case RepoField => "repo"
    case TitleField => "title"
    case DescriptionField => "description"
    case PriorityField => "priority"
    case GroomedField => "groomed"
    case LabelsField => "labels"
    case CriteriaField => "acceptance_criteria"
    case NotBeforeField => "not_before"
  }

  function NameIfClashed(c: Changes, f: Field): seq<string> {
    if Clashed(c, f) then [NameOf(f)] else []
  }

  function NamesOfClashes(c: Changes, fields: seq<Field>): seq<string> {
    if fields == [] then []
    else NamesOfClashes(c, fields[..|fields| - 1])
         + NameIfClashed(c, fields[|fields| - 1])
  }

  // The report of a conflict names the diverging fields, in the order of the fields.
  lemma ConflictsNamed(doc: Doc, current: Stored, f: Field)
    requires TaskSetOf(doc, current).Conflicting?
    ensures
      var fields := TaskSetOf(doc, current).fields;
      && fields == NamesOfClashes(MergeAll(doc, BaseValues(doc, current), current.values), FIELDS)
      && (NameOf(f) in fields <==> Diverges(doc, f, BaseValues(doc, current), current.values))
  {
    hide NamesOfClashes, Clashes, Clashed, NameOf, MergeAll, Diverges;
    var c := MergeAll(doc, BaseValues(doc, current), current.values);
    ClashRule(doc, f, BaseValues(doc, current), current.values);
    NamesInOrder(c);
    NamesMean(c, FIELDS, f);
    assert f in FIELDS;
  }

  lemma {:induction false} NamesMean(c: Changes, fields: seq<Field>, f: Field)
    ensures NameOf(f) in NamesOfClashes(c, fields) <==> f in fields && Clashed(c, f)
  {
    hide Clashed;
    if fields != [] {
      var n := |fields| - 1;
      NamesMean(c, fields[..n], f);
      assert fields == fields[..n] + [fields[n]];
    }
  }

  lemma NamesInOrder(c: Changes)
    ensures Clashes(c) == NamesOfClashes(c, FIELDS)
  {
    hide NamesOfClashes, NameIfClashed, Named;
    NamedFields(c);
    NamesOfNone(c);
    assert FIELDS[..0] == [] && FIELDS[..10] == FIELDS;
    assert FIELDS[..1] == FIELDS[..0] + [KindField];
    var one := OneMoreName(c, FIELDS[..0], KindField, []);
    assert FIELDS[..2] == FIELDS[..1] + [StatusField];
    var two := OneMoreName(c, FIELDS[..1], StatusField, one);
    assert FIELDS[..3] == FIELDS[..2] + [RepoField];
    var three := OneMoreName(c, FIELDS[..2], RepoField, two);
    assert FIELDS[..4] == FIELDS[..3] + [TitleField];
    var four := OneMoreName(c, FIELDS[..3], TitleField, three);
    assert FIELDS[..5] == FIELDS[..4] + [DescriptionField];
    var five := OneMoreName(c, FIELDS[..4], DescriptionField, four);
    assert FIELDS[..6] == FIELDS[..5] + [PriorityField];
    var six := OneMoreName(c, FIELDS[..5], PriorityField, five);
    assert FIELDS[..7] == FIELDS[..6] + [GroomedField];
    var seven := OneMoreName(c, FIELDS[..6], GroomedField, six);
    assert FIELDS[..8] == FIELDS[..7] + [LabelsField];
    var eight := OneMoreName(c, FIELDS[..7], LabelsField, seven);
    assert FIELDS[..9] == FIELDS[..8] + [CriteriaField];
    var nine := OneMoreName(c, FIELDS[..8], CriteriaField, eight);
    assert FIELDS[..10] == FIELDS[..9] + [NotBeforeField];
    var ten := OneMoreName(c, FIELDS[..9], NotBeforeField, nine);
    assert [] + Named(c.kind, "kind") == Named(c.kind, "kind");
  }

  lemma NamesOfNone(c: Changes)
    ensures NamesOfClashes(c, []) == []
  {
  }

  lemma OneMoreName(c: Changes, fields: seq<Field>, f: Field, names: seq<string>) returns (more: seq<string>)
    requires names == NamesOfClashes(c, fields)
    ensures more == names + NameIfClashed(c, f) == NamesOfClashes(c, fields + [f])
  {
    assert (fields + [f])[..|fields|] == fields;
    more := names + NameIfClashed(c, f);
  }

  lemma NamedFields(c: Changes)
    ensures Named(c.kind, "kind") == NameIfClashed(c, KindField)
    ensures Named(c.status, "status") == NameIfClashed(c, StatusField)
    ensures Named(c.repo, "repo") == NameIfClashed(c, RepoField)
    ensures Named(c.title, "title") == NameIfClashed(c, TitleField)
    ensures Named(c.description, "description") == NameIfClashed(c, DescriptionField)
    ensures Named(c.priority, "priority") == NameIfClashed(c, PriorityField)
    ensures Named(c.groomed, "groomed") == NameIfClashed(c, GroomedField)
    ensures Named(c.labels, "labels") == NameIfClashed(c, LabelsField)
    ensures Named(c.criteria, "acceptance_criteria") == NameIfClashed(c, CriteriaField)
    ensures Named(c.notBefore, "not_before") == NameIfClashed(c, NotBeforeField)
  {
  }

  // A document is rejected exactly for another id or project, for a managed field
  // that is not the one it started from, or for writing a kind or status nobody knows.
  lemma RejectedIff(doc: Doc, s: Stored)
    requires doc.base.None? || DerivedFrom(doc, s)
    ensures TaskSetOf(doc, s).Rejected? <==>
            || (doc.id.Some? && doc.id.value != s.id) || (doc.project.Some? && doc.project.value != s.project)
            || (doc.assignee.Some? && doc.assignee.value != s.managed.assignee)
            || (doc.deps.Some? && multiset(doc.deps.value) != multiset(s.managed.deps))
            || (doc.waitingOn.Some? && multiset(doc.waitingOn.value) != multiset(s.managed.waitingOn))
            || (doc.notes.Some? && doc.notes.value != s.managed.notes)
            || (doc.snooze.Some? && doc.snooze != s.managed.snooze)
            || (doc.kind.Some? && doc.kind.value != s.values.kind
                && doc.kind.value !in {"task", "milestone", "idea", "bug"})
            || (doc.status.Some? && doc.status.value != s.values.status
                && doc.status.value !in {"todo", "in_progress", "blocked", "ready_for_review", "done", "cancelled"})
  {
  }

  /* Saving both, in either order. */

  // The task after the first document is one the second still finds acceptable.
  lemma StillAcceptable(first: Doc, second: Doc, s: Stored, now: int)
    requires DerivedFrom(first, s) && DerivedFrom(second, s)
    requires Apply(first, s, now).Some? && Acceptable(second, s)
    ensures
      var mid := Apply(first, s, now).value;
      && Acceptable(second, mid) && BaseValues(second, mid) == s.values
      && IsMerge(mid.values, first, s.values, s.values)
  {
    MergeMeetsItsSpecification(first, s);
    var mid := Apply(first, s, now).value;
    assert BaseValues(second, mid) == s.values && BaseManaged(second, mid) == s.managed;
    assert Echoes(second, mid);
    var before, after := MergeAll(second, s.values, s.values), MergeAll(second, s.values, mid.values);
    assert after.kind.Take? ==> before.kind == after.kind;
    assert after.status.Take? ==> before.status == after.status;
  }

  // The values reached in the two orders, a and b after the first document and
  // ab and ba after both.
  lemma OrdersOfValues(one: Doc, two: Doc, base: Values, a: Values, b: Values)
    requires IsMerge(a, one, base, base) && IsMerge(b, two, base, base)
    ensures AnyDiverges(two, base, a) <==> AnyDiverges(one, base, b)
    ensures AnyDiverges(two, base, a) ==> !AgreeWhereBothWrite(one, two, base)
    ensures !AnyDiverges(two, base, a) ==>
              ((forall f :: Merged(two, f, base, a) == Merged(one, f, base, b))
               <==> AgreeWhereBothWrite(one, two, base))
    ensures !AnyDiverges(two, base, a) ==> forall f :: Same(f, Merged(two, f, base, a), Merged(one, f, base, b))
  {
    forall f
      ensures Diverges(two, f, base, a) <==> Diverges(one, f, base, b)
      ensures Diverges(two, f, base, a) ==> !AgreeOn(one, two, f, base)
      ensures !Diverges(two, f, base, a) ==>
                (Merged(two, f, base, a) == Merged(one, f, base, b) <==> AgreeOn(one, two, f, base))
      ensures !Diverges(two, f, base, a) ==> Same(f, Merged(two, f, base, a), Merged(one, f, base, b))
    {
      FieldOrders(one, two, f, base, a, b);
    }
  }

  lemma SameMerges(ab: Values, ba: Values, one: Doc, two: Doc, base: Values, a: Values, b: Values)
    requires IsMerge(ab, two, base, a) && IsMerge(ba, one, base, b)
    ensures ab == ba <==> forall f :: Merged(two, f, base, a) == Merged(one, f, base, b)
  {
    SameFields(ab, ba);
    if forall f :: Merged(two, f, base, a) == Merged(one, f, base, b) {
      forall f
        ensures Of(ab, f) == Of(ba, f)
      {
        assert Merged(two, f, base, a) == Merged(one, f, base, b);
      }
    } else {
      var f :| Merged(two, f, base, a) != Merged(one, f, base, b);
      assert Of(ab, f) != Of(ba, f);
    }
  }

  // Applying the second document to the task the first one left.
  lemma SecondSave(first: Doc, second: Doc, s: Stored, now: int)
    requires DerivedFrom(first, s) && DerivedFrom(second, s)
    requires Apply(first, s, now).Some? && Acceptable(second, s)
    ensures
      var mid := Apply(first, s, now).value;
      && mid == s.(values := mid.values, updatedAt := now)
      && IsMerge(mid.values, first, s.values, s.values)
      && (Apply(second, mid, now).None? <==> AnyDiverges(second, s.values, mid.values))
      && (Apply(second, mid, now).Some? ==>
            && Apply(second, mid, now).value == mid.(values := Apply(second, mid, now).value.values)
            && IsMerge(Apply(second, mid, now).value.values, second, s.values, mid.values))
  {
    StillAcceptable(first, second, s, now);
    MergeMeetsItsSpecification(second, Apply(first, s, now).value);
  }

  // Two editors start from the same task. Whoever saves second is refused in both
  // orders or in neither, and both orders end in the same task exactly when the
  // documents write equal values wherever they write the same field.
  lemma SavingOrder(one: Doc, two: Doc, s: Stored, now: int)
    requires DerivedFrom(one, s) && DerivedFrom(two, s)
    requires Apply(one, s, now).Some? && Apply(two, s, now).Some?
    ensures
      var a, b := Apply(one, s, now).value, Apply(two, s, now).value;
      && (Apply(two, a, now).None? <==> Apply(one, b, now).None?)
      && (Apply(two, a, now).Some? && Apply(two, a, now) == Apply(one, b, now)
          <==> AgreeWhereBothWrite(one, two, s.values))
  {
    var a, b := Apply(one, s, now).value, Apply(two, s, now).value;
    SecondSave(one, two, s, now);
    SecondSave(two, one, s, now);
    OrdersOfValues(one, two, s.values, a.values, b.values);
    var ab, ba := Apply(two, a, now), Apply(one, b, now);
    if ab.Some? && ba.Some? {
      SameMerges(ab.value.values, ba.value.values, one, two, s.values, a.values, b.values);
    }
  }

  // When nobody is refused, the two orders differ at most in the order of labels.
  lemma OrdersDifferOnlyInLabelOrder(one: Doc, two: Doc, s: Stored, now: int)
    requires DerivedFrom(one, s) && DerivedFrom(two, s)
    requires Apply(one, s, now).Some? && Apply(two, s, now).Some?
    requires Apply(two, Apply(one, s, now).value, now).Some?
    ensures
      var a, b := Apply(one, s, now).value, Apply(two, s, now).value;
      && Apply(one, b, now).Some?
      && forall f :: Same(f, Of(Apply(two, a, now).value.values, f), Of(Apply(one, b, now).value.values, f))
  {
    SecondSave(one, two, s, now);
    SecondSave(two, one, s, now);
    OrdersOfValues(one, two, s.values, Apply(one, s, now).value.values, Apply(two, s, now).value.values);
  }

  // Writing disjoint fields is enough to commute but is not needed: two editors
  // making one and the same change also commute.
  lemma DisjointWritesCommute(one: Doc, two: Doc, s: Stored, now: int)
    requires DerivedFrom(one, s) && DerivedFrom(two, s)
    requires Apply(one, s, now).Some? && Apply(two, s, now).Some?
    requires DisjointWrites(one, two, s.values) || one == two
    ensures
      var a, b := Apply(one, s, now).value, Apply(two, s, now).value;
      Apply(two, a, now).Some? && Apply(two, a, now) == Apply(one, b, now)
  {
    SavingOrder(one, two, s, now);
  }
}
