/**
 The work board: tasks grouped under the capture they were promoted from, and
 the rollup of a capture from its promoted tasks.
 */
module Board {
  import opened Ordering
  import opened Tickets

  // An empty origin means the task was promoted from nothing.
  datatype View = View(id: TicketId, origin: TicketId, originTitle: string, status: Status, reason: string)

  datatype Summary = Summary(state: string, kind: string)

  datatype Group = Group(
    idea: TicketId, title: string, summary: Summary, ungrouped: bool, tasks: seq<View>)

  type Ranking = map<TicketId, nat>

  // An unranked task sorts after every ranked one.
  function Position(ranking: Ranking, id: TicketId): nat {
    if id in ranking then ranking[id] else |ranking|
  }

  // The tasks of one origin, in order.
  function Under(tasks: seq<View>, origin: TicketId): (r: seq<View>)
    ensures forall t :: t in r <==> t in tasks && t.origin == origin
  {
    if tasks == [] then []
    else
      var n := |tasks| - 1;
      Under(tasks[..n], origin) + if tasks[n].origin == origin then [tasks[n]] else []
  }

  function Min(a: nat, b: nat): nat {
    if b < a then b else a
  }

  // The best position among the tasks of one origin.
  function Best(tasks: seq<View>, ranking: Ranking, origin: TicketId): (r: nat)
    requires Under(tasks, origin) != []
    ensures forall t :: t in Under(tasks, origin) ==> r <= Position(ranking, t.id)
    ensures exists t :: t in Under(tasks, origin) && r == Position(ranking, t.id)
  {
    var n := |tasks| - 1;
    var earlier, position := Under(tasks[..n], origin), Position(ranking, tasks[n].id);
    if tasks[n].origin != origin then Best(tasks[..n], ranking, origin)
    else if earlier == [] then assert tasks[n] in Under(tasks, origin); position
    else
      assert tasks[n] in Under(tasks, origin);
      assert forall t :: t in earlier ==> t in Under(tasks, origin);
      Min(Best(tasks[..n], ranking, origin), position)
  }

  // The group order: the ungrouped bucket last, then by best position, then by id.
  predicate Leads(best: map<TicketId, nat>, a: TicketId, b: TicketId) {
    if a == "" then false
    else if b == "" then true
    else
      var x, y := if a in best then best[a] else 0, if b in best then best[b] else 0;
      if x != y then x < y else StrLess(a, b)
  }

  function ByBest(best: map<TicketId, nat>): (TicketId, TicketId) -> bool {
    (a, b) => Leads(best, a, b)
  }

  function ByRank(ranking: Ranking): (View, View) -> bool {
    (a: View, b: View) => Position(ranking, a.id) < Position(ranking, b.id)
  }

  lemma LeadsIsTotal(best: map<TicketId, nat>)
    ensures StrictTotal(ByBest(best)) && StrictWeak(ByBest(best))
  {
    var less := ByBest(best);
    forall a: TicketId, b: TicketId
      ensures !(less(a, b) && less(b, a)) && (a == b || less(a, b) || less(b, a))
    {
      StrLessTrichotomy(a, b);
    }
    forall a: TicketId, b: TicketId, c: TicketId | less(a, b) && less(b, c)
      ensures less(a, c)
    {
      if StrLess(a, b) && StrLess(b, c) {
        StrLessTransitive(a, b, c);
      }
    }
    TotalIsWeak(less);
  }

  lemma ByRankIsWeak(ranking: Ranking)
    ensures StrictWeak(ByRank(ranking))
  {
  }

  /* The grouping. */

  // One group for every origin met, holding that origin's tasks by rank; groups
  // in the group order.
  ghost predicate Grouped(groups: seq<Group>, tasks: seq<View>, ranking: Ranking) {
    && Distinct(Ideas(groups))
    && (forall id :: id in Ideas(groups) <==> Under(tasks, id) != [])
    && (forall k :: 0 <= k < |groups| ==> Finishes(groups[k], tasks, ranking))
    && (forall i, j :: 0 <= i < j < |groups| ==> Precedes(tasks, ranking, groups[i].idea, groups[j].idea))
  }

  function Ideas(groups: seq<Group>): seq<TicketId> {
    seq(|groups|, i requires 0 <= i < |groups| => groups[i].idea)
  }

  ghost predicate Precedes(tasks: seq<View>, ranking: Ranking, a: TicketId, b: TicketId) {
    && a != ""
    && (b == "" || (Under(tasks, a) != [] && Under(tasks, b) != []
                    && (Best(tasks, ranking, a) < Best(tasks, ranking, b)
                        || (Best(tasks, ranking, a) == Best(tasks, ranking, b) && StrLess(a, b)))))
  }

  /* The algorithm. */

  // What has been collected for one origin agrees with the tasks read so far.
  predicate Entered(id: TicketId, order: seq<TicketId>, best: map<TicketId, nat>, groups: map<TicketId, Group>,
                    tasks: seq<View>, ranking: Ranking) {
    && (id in order <==> Under(tasks, id) != []) && (id in groups <==> id in order) && (id in best <==> id in order)
    && (id in groups ==>
          && groups[id].idea == id && (groups[id].ungrouped <==> id == "")
          && groups[id].tasks == Under(tasks, id))
    && (id in best && Under(tasks, id) != [] ==> best[id] == Best(tasks, ranking, id))
  }

  ghost predicate Collected(order: seq<TicketId>, best: map<TicketId, nat>,
                            groups: map<TicketId, Group>, tasks: seq<View>,
                            ranking: Ranking) {
    Distinct(order) && forall id :: Entered(id, order, best, groups, tasks, ranking)
  }

  lemma UnderStep(tasks: seq<View>, i: nat, id: TicketId)
    requires i < |tasks|
    ensures Under(tasks[..i + 1], id) == Under(tasks[..i], id) + if tasks[i].origin == id then [tasks[i]] else []
  {
    assert tasks[..i + 1][..i] == tasks[..i];
  }

  lemma BestStep(tasks: seq<View>, i: nat, ranking: Ranking, id: TicketId)
    requires i < |tasks| && Under(tasks[..i + 1], id) != []
    ensures tasks[i].origin != id ==> Under(tasks[..i], id) != []
    ensures Best(tasks[..i + 1], ranking, id) ==
            if tasks[i].origin != id then Best(tasks[..i], ranking, id)
            else if Under(tasks[..i], id) == [] then Position(ranking, tasks[i].id)
            else Min(Best(tasks[..i], ranking, id), Position(ranking, tasks[i].id))
  {
    assert tasks[..i + 1][..i] == tasks[..i];
    UnderStep(tasks, i, id);
  }

  lemma EnterStep(id: TicketId, order: seq<TicketId>, best: map<TicketId, nat>, groups: map<TicketId, Group>,
                  tasks: seq<View>, i: nat, ranking: Ranking, group: Group)
    requires i < |tasks| && Entered(id, order, best, groups, tasks[..i], ranking)
    requires tasks[i].origin in groups <==> tasks[i].origin in order
    requires tasks[i].origin in best <==> tasks[i].origin in order
    requires tasks[i].origin in groups ==> group == groups[tasks[i].origin]
    requires tasks[i].origin !in groups ==>
               group.idea == tasks[i].origin && group.tasks == [] && (group.ungrouped <==> group.idea == "")
    ensures
      var task := tasks[i];
      var position := Position(ranking, task.id);
      var origin := task.origin;
      Entered(id, if origin in groups then order else order + [origin],
              best[origin := if origin in best then Min(best[origin], position) else position],
              groups[origin := group.(tasks := group.tasks + [task])], tasks[..i + 1], ranking)
  {
    hide Under, Best, Min, Position;
    UnderStep(tasks, i, id);
    if Under(tasks[..i + 1], id) != [] {
      BestStep(tasks, i, ranking, id);
    }
  }

  lemma CollectStep(order: seq<TicketId>, best: map<TicketId, nat>, groups: map<TicketId, Group>,
                    tasks: seq<View>, i: nat, ranking: Ranking, group: Group)
    requires i < |tasks| && Collected(order, best, groups, tasks[..i], ranking)
    requires tasks[i].origin in groups ==> group == groups[tasks[i].origin]
    requires tasks[i].origin !in groups ==>
               group.idea == tasks[i].origin && group.tasks == [] && (group.ungrouped <==> group.idea == "")
    ensures
      var task := tasks[i];
      var position := Position(ranking, task.id);
      var origin := task.origin;
      Collected(if origin in groups then order else order + [origin],
                best[origin := if origin in best then Min(best[origin], position) else position],
                groups[origin := group.(tasks := group.tasks + [task])], tasks[..i + 1], ranking)
  {
    var task := tasks[i];
    var position, origin := Position(ranking, task.id), task.origin;
    assert Entered(origin, order, best, groups, tasks[..i], ranking);
    var order1 := if origin in groups then order else order + [origin];
    var best1 := best[origin := if origin in best then Min(best[origin], position) else position];
    var groups1 := groups[origin := group.(tasks := group.tasks + [task])];
    assert origin !in groups ==> origin !in order;
    var longer := tasks[..i + 1];
    hide Entered, Position, Min;
    forall id: TicketId
      ensures Entered(id, order1, best1, groups1, longer, ranking)
    {
      assert Entered(id, order, best, groups, tasks[..i], ranking);
      EnterStep(id, order, best, groups, tasks, i, ranking, group);
    }
  }

  lemma CollectedNone(ranking: Ranking)
    ensures Collected([], map[], map[], [], ranking)
  {
  }

  // A group has the origin title of the first task listed for it, and the summary of
  // its capture, empty if there is none.
  predicate Headed(group: Group, own: seq<View>, summaries: map<TicketId, Summary>) {
    && own != [] && group.title == own[0].originTitle
    && group.summary == if group.idea in summaries then summaries[group.idea] else Summary("", "")
  }

  ghost predicate AllHeaded(groups: map<TicketId, Group>, tasks: seq<View>, summaries: map<TicketId, Summary>) {
    forall id :: id in groups ==> groups[id].idea == id && Headed(groups[id], Under(tasks, id), summaries)
  }

  lemma HeadStep(groups: map<TicketId, Group>, tasks: seq<View>, i: nat, summaries: map<TicketId, Summary>,
                 group: Group)
    requires i < |tasks| && AllHeaded(groups, tasks[..i], summaries)
    requires tasks[i].origin in groups ==> group == groups[tasks[i].origin]
    requires tasks[i].origin !in groups ==>
               Under(tasks[..i], tasks[i].origin) == []
               && group.idea == tasks[i].origin && Headed(group, [tasks[i]], summaries)
    ensures AllHeaded(groups[tasks[i].origin := group.(tasks := group.tasks + [tasks[i]])], tasks[..i + 1], summaries)
  {
    hide Under;
    var origin := tasks[i].origin;
    var next := groups[origin := group.(tasks := group.tasks + [tasks[i]])];
    forall id | id in next
      ensures next[id].idea == id && Headed(next[id], Under(tasks[..i + 1], id), summaries)
    {
      UnderStep(tasks, i, id);
      assert id in groups ==> Headed(groups[id], Under(tasks[..i], id), summaries);
    }
  }

  method Collect(tasks: seq<View>, summaries: map<TicketId, Summary>, ranking: Ranking)
    returns (order: seq<TicketId>, best: map<TicketId, nat>, groups: map<TicketId, Group>)
    ensures Collected(order, best, groups, tasks, ranking) && AllHeaded(groups, tasks, summaries)
  {
    hide Under, Best, Distinct, Position;
    order, best, groups := [], map[], map[];
    CollectedNone(ranking);
    assert tasks[..0] == [];
    for i := 0 to |tasks|
      invariant Collected(order, best, groups, tasks[..i], ranking) && AllHeaded(groups, tasks[..i], summaries)
    {
      var task := tasks[i];
      var origin, position := task.origin, Position(ranking, task.id);
      var group: Group;
      ghost var order0, best0, groups0 := order, best, groups;
      assert Entered(origin, order, best, groups, tasks[..i], ranking);
      if origin in groups {
        group := groups[origin];
      } else {
        var summary := if origin in summaries then summaries[origin] else Summary("", "");
        group := Group(origin, task.originTitle, summary, origin == "", []);
        order := order + [origin];
        best := best[origin := position];
      }
      CollectStep(order0, best0, groups0, tasks, i, ranking, group);
      HeadStep(groups0, tasks, i, summaries, group);
      if position < best[origin] {
        best := best[origin := position];
      }
      assert best == best0[origin := if origin in best0 then Min(best0[origin], position) else position];
      groups := groups[origin := group.(tasks := group.tasks + [task])];
    }
    assert tasks[..|tasks|] == tasks;
  }

  method GroupByOrigin(tasks: seq<View>, summaries: map<TicketId, Summary>, ranking: Ranking) returns (out: seq<Group>)
    ensures Grouped(out, tasks, ranking)
    ensures forall k :: 0 <= k < |out| ==> Headed(out[k], Under(tasks, out[k].idea), summaries)
  {
    hide Under, Best, Precedes, ByBest, ByRank;
    var order, best, groups := Collect(tasks, summaries, ranking);
    var sorted := SortBy(ByBest(best), order);
    SortedOrder(order, best, groups, tasks, ranking);
    out := [];
    for i := 0 to |sorted|
      invariant |out| == i
      invariant forall k :: 0 <= k < i ==> out[k].idea == sorted[k] && Finishes(out[k], tasks, ranking)
      invariant forall k :: 0 <= k < i ==> Headed(out[k], Under(tasks, out[k].idea), summaries)
    {
      assert sorted[i] in sorted;
      SortByMembers(ByBest(best), order, sorted[i]);
      assert Entered(sorted[i], order, best, groups, tasks, ranking);
      var group := groups[sorted[i]];
      out := out + [group.(tasks := SortBy(ByRank(ranking), group.tasks))];
    }
    assert Ideas(out) == sorted;
  }

  // The group is complete: its own tasks by rank, and marked if it has no origin.
  predicate Finishes(group: Group, tasks: seq<View>, ranking: Ranking) {
    && group.tasks == SortBy(ByRank(ranking), Under(tasks, group.idea))
    && (group.ungrouped <==> group.idea == "")
  }

  lemma SortedOrder(order: seq<TicketId>, best: map<TicketId, nat>, groups: map<TicketId, Group>,
                    tasks: seq<View>, ranking: Ranking)
    requires Collected(order, best, groups, tasks, ranking)
    ensures
      var sorted := SortBy(ByBest(best), order);
      && Distinct(sorted)
      && (forall id :: id in sorted <==> Under(tasks, id) != [])
      && (forall i, j :: 0 <= i < j < |sorted| ==> Precedes(tasks, ranking, sorted[i], sorted[j]))
  {
    var less := ByBest(best);
    var sorted := SortBy(less, order);
    LeadsIsTotal(best);
    SortBySorted(less, order);
    SortByDistinct(less, order);
    forall id
      ensures id in sorted <==> Under(tasks, id) != []
    {
      assert Entered(id, order, best, groups, tasks, ranking);
      SortByMembers(less, order, id);
    }
    forall i, j | 0 <= i < j < |sorted|
      ensures Precedes(tasks, ranking, sorted[i], sorted[j])
    {
      assert sorted[i] in sorted && sorted[j] in sorted;
      assert !less(sorted[j], sorted[i]) && sorted[i] != sorted[j];
      SortByMembers(less, order, sorted[i]);
      SortByMembers(less, order, sorted[j]);
      assert Entered(sorted[i], order, best, groups, tasks, ranking);
      assert Entered(sorted[j], order, best, groups, tasks, ranking);
      assert less(sorted[i], sorted[j]);
    }
  }

  /* What the grouping promises. */

  function Flattened(groups: seq<Group>): seq<View> {
    if groups == [] then [] else groups[0].tasks + Flattened(groups[1..])
  }

  lemma {:induction false} UnderCounts(tasks: seq<View>, origin: TicketId, t: View)
    ensures multiset(Under(tasks, origin))[t] == if t.origin == origin then multiset(tasks)[t] else 0
  {
    if tasks != [] {
      var n := |tasks| - 1;
      UnderCounts(tasks[..n], origin, t);
      assert tasks == tasks[..n] + [tasks[n]];
    }
  }

  lemma {:induction false} FlattenedCounts(groups: seq<Group>, tasks: seq<View>, ranking: Ranking, t: View)
    requires Distinct(Ideas(groups))
    requires forall k :: 0 <= k < |groups| ==> Finishes(groups[k], tasks, ranking)
    ensures multiset(Flattened(groups))[t] == if t.origin in Ideas(groups) then multiset(tasks)[t] else 0
  {
    if groups != [] {
      var first, rest := groups[0], groups[1..];
      assert Ideas(groups) == [first.idea] + Ideas(rest);
      assert Distinct(Ideas(rest)) by {
        assert forall i :: 0 <= i < |Ideas(rest)| ==> Ideas(rest)[i] == Ideas(groups)[i + 1];
      }
      assert first.idea !in Ideas(rest) by {
        assert forall i :: 0 <= i < |Ideas(rest)| ==> Ideas(rest)[i] == Ideas(groups)[i + 1] != Ideas(groups)[0];
      }
      FlattenedCounts(rest, tasks, ranking, t);
      SortByPermutes(ByRank(ranking), Under(tasks, first.idea));
      UnderCounts(tasks, first.idea, t);
    }
  }

  // The groups partition the tasks: each task appears once, in the group of its
  // own origin.
  lemma {:induction false} GroupsPartition(groups: seq<Group>, tasks: seq<View>, ranking: Ranking)
    requires Grouped(groups, tasks, ranking)
    ensures multiset(Flattened(groups)) == multiset(tasks)
    ensures forall k, t :: 0 <= k < |groups| && t in groups[k].tasks ==> t in tasks && t.origin == groups[k].idea
  {
    hide Under, Best, ByRank, Flattened, Precedes, Ideas;
    forall t: View
      ensures multiset(Flattened(groups))[t] == multiset(tasks)[t]
    {
      FlattenedCounts(groups, tasks, ranking, t);
      if t.origin !in Ideas(groups) {
        assert t !in Under(tasks, t.origin);
        assert multiset(tasks)[t] == 0;
      }
    }
    forall k, t | 0 <= k < |groups| && t in groups[k].tasks
      ensures t in tasks && t.origin == groups[k].idea
    {
      assert Finishes(groups[k], tasks, ranking);
      SortByMembers(ByRank(ranking), Under(tasks, groups[k].idea), t);
    }
  }

  // Inside a group tasks follow the rank, and tasks of one rank keep their order.
  lemma TasksFollowTheRank(groups: seq<Group>, tasks: seq<View>, ranking: Ranking, k: nat, t: View)
    requires Grouped(groups, tasks, ranking) && k < |groups|
    ensures forall i, j :: 0 <= i < j < |groups[k].tasks| ==>
              Position(ranking, groups[k].tasks[i].id) <= Position(ranking, groups[k].tasks[j].id)
    ensures Peers(ByRank(ranking), t, groups[k].tasks) == Peers(ByRank(ranking), t, Under(tasks, groups[k].idea))
  {
    var less, own := ByRank(ranking), Under(tasks, groups[k].idea);
    ByRankIsWeak(ranking);
    SortBySorted(less, own);
    SortByStable(less, own, t);
    forall i, j | 0 <= i < j < |groups[k].tasks|
      ensures Position(ranking, groups[k].tasks[i].id) <= Position(ranking, groups[k].tasks[j].id)
    {
      assert !less(groups[k].tasks[j], groups[k].tasks[i]);
    }
  }

  // Only the last group can be the bucket of tasks without an origin.
  lemma {:induction false} UngroupedLast(groups: seq<Group>, tasks: seq<View>, ranking: Ranking, k: nat, later: nat)
    requires Grouped(groups, tasks, ranking) && k < later < |groups|
    ensures !groups[k].ungrouped
  {
    hide Under, Best, ByRank;
    assert Finishes(groups[k], tasks, ranking);
    assert Precedes(tasks, ranking, groups[k].idea, groups[later].idea);
  }

  // The ranks are positions in a listing.
  ghost predicate Positions(ranking: Ranking) {
    forall id :: id in ranking ==> ranking[id] < |ranking|
  }

  // Inside a group the ranked tasks come first, by rank, and the unranked ones last.
  lemma RankedFirst(groups: seq<Group>, tasks: seq<View>, ranking: Ranking, k: nat, i: nat, j: nat)
    requires Grouped(groups, tasks, ranking) && Positions(ranking) && k < |groups| && i < j < |groups[k].tasks|
    ensures
      var t, u := groups[k].tasks[i].id, groups[k].tasks[j].id;
      u in ranking ==> t in ranking && ranking[t] <= ranking[u]
  {
    TasksFollowTheRank(groups, tasks, ranking, k, groups[k].tasks[i]);
  }

  // A group with a ranked task comes behind only those with one ranked no lower, and
  // before those without.
  lemma RankedGroupsFirst(groups: seq<Group>, tasks: seq<View>, ranking: Ranking, i: nat, j: nat, t: View)
    requires Grouped(groups, tasks, ranking) && Positions(ranking) && i < j < |groups|
    requires t in tasks && t.origin == groups[j].idea && t.origin != "" && t.id in ranking
    ensures exists u :: u in tasks && u.origin == groups[i].idea && u.id in ranking && ranking[u.id] <= ranking[t.id]
  {
    hide Under, Best;
    assert Precedes(tasks, ranking, groups[i].idea, groups[j].idea);
    assert t in Under(tasks, groups[j].idea);
    var u :| u in Under(tasks, groups[i].idea) && Best(tasks, ranking, groups[i].idea) == Position(ranking, u.id);
    assert Position(ranking, u.id) <= Position(ranking, t.id);
  }

  // The board opens with a task that no task with an origin outranks.
  lemma {:induction false} BestFirst(groups: seq<Group>, tasks: seq<View>, ranking: Ranking, t: View)
    requires Grouped(groups, tasks, ranking) && t in tasks && t.origin != ""
    ensures groups != [] && groups[0].tasks != [] && Position(ranking, groups[0].tasks[0].id) <= Position(ranking, t.id)
  {
    hide Under, Best, ByRank, Position;
    assert t in Under(tasks, t.origin);
    assert t.origin in Ideas(groups);
    var j :| 0 <= j < |groups| && Ideas(groups)[j] == t.origin;
    var first := groups[0];
    assert Ideas(groups)[0] == first.idea && first.idea in Ideas(groups);
    assert Finishes(first, tasks, ranking);
    FirstIsBest(tasks, ranking, first.idea);
    if j > 0 {
      assert Precedes(tasks, ranking, groups[0].idea, groups[j].idea);
    }
  }

  lemma {:induction false} FirstIsBest(tasks: seq<View>, ranking: Ranking, origin: TicketId)
    requires Under(tasks, origin) != []
    ensures
      var sorted := SortBy(ByRank(ranking), Under(tasks, origin));
      sorted != [] && Position(ranking, sorted[0].id) == Best(tasks, ranking, origin)
  {
    var less, own, best := ByRank(ranking), Under(tasks, origin), Best(tasks, ranking, origin);
    var t :| t in own && best == Position(ranking, t.id);
    assert forall u :: u in own ==> best <= Position(ranking, u.id);
    hide Under, Best, Position;
    var sorted := SortBy(less, own);
    ByRankIsWeak(ranking);
    SortBySorted(less, own);
    SortByMembers(less, own, t);
    var i :| 0 <= i < |sorted| && sorted[i] == t;
    SortByMembers(less, own, sorted[0]);
    if i > 0 {
      assert !less(sorted[i], sorted[0]);
    }
  }

  /* The rollup of one capture. */

  datatype TaskState = Finished | Held | Active | Waiting

  function StateOf(t: View): TaskState {
    if t.status.Finished? || t.status.Dropped? then TaskState.Finished
    else if t.status.Blocked? || t.reason != "" then Held
    else if t.status.InProgress? || t.status.ReadyForReview? then Active
    else Waiting
  }

  datatype Rollup = Rollup(done: nat, blocked: nat, active: nat, todo: nat, total: nat)

  datatype IdeaState = Captured | IdeaFinished | IdeaBlocked | IdeaActive

  function IdeaRollup(r: Rollup): IdeaState {
    if r.total == 0 then Captured
    else if r.done == r.total then IdeaFinished
    else if r.blocked > 0 then IdeaBlocked
    else if r.done > 0 || r.active > 0 then IdeaActive
    else Captured
  }

  function CountOf(tasks: seq<View>, state: TaskState): nat {
    if tasks == [] then 0
    else CountOf(tasks[..|tasks| - 1], state) + if StateOf(tasks[|tasks| - 1]) == state then 1 else 0
  }

  method RollupIdea(idea: TicketId, tasks: seq<View>) returns (r: Rollup, state: IdeaState, promoted: seq<View>)
    ensures promoted == Under(tasks, idea)
    ensures r == Rollup(CountOf(promoted, TaskState.Finished), CountOf(promoted, Held), CountOf(promoted, Active),
                        CountOf(promoted, Waiting), |promoted|)
    ensures state == IdeaRollup(r)
  {
    promoted := [];
    for i := 0 to |tasks|
      invariant promoted == Under(tasks[..i], idea)
    {
      assert tasks[..i + 1][..i] == tasks[..i];
      if tasks[i].origin == idea {
        promoted := promoted + [tasks[i]];
      } else {
        assert promoted + [] == promoted;
      }
    }
    assert tasks[..|tasks|] == tasks;
    r := Rollup(0, 0, 0, 0, 0);
    for i := 0 to |promoted|
      invariant r.done == CountOf(promoted[..i], TaskState.Finished) && r.blocked == CountOf(promoted[..i], Held)
      invariant r.active == CountOf(promoted[..i], Active) && r.todo == CountOf(promoted[..i], Waiting)
    {
      assert promoted[..i + 1][..i] == promoted[..i];
      match StateOf(promoted[i])
      case Finished => r := r.(done := r.done + 1);
      case Held => r := r.(blocked := r.blocked + 1);
      case Active => r := r.(active := r.active + 1);
      case Waiting => r := r.(todo := r.todo + 1);
    }
    assert promoted[..|promoted|] == promoted;
    r := r.(total := |promoted|);
    state := IdeaRollup(r);
  }

  lemma {:induction false} CountsAddUp(tasks: seq<View>)
    ensures CountOf(tasks, TaskState.Finished) + CountOf(tasks, Held) + CountOf(tasks, Active)
              + CountOf(tasks, Waiting) == |tasks|
    ensures forall s :: CountOf(tasks, s) > 0 <==> exists t :: t in tasks && StateOf(t) == s
    ensures forall s :: CountOf(tasks, s) == |tasks| <==> forall t :: t in tasks ==> StateOf(t) == s
  {
    if tasks != [] {
      var n := |tasks| - 1;
      CountsAddUp(tasks[..n]);
      assert tasks == tasks[..n] + [tasks[n]];
      CountBound(tasks[..n]);
    }
  }

  lemma {:induction false} CountBound(tasks: seq<View>)
    ensures forall s :: CountOf(tasks, s) <= |tasks|
  {
    if tasks != [] {
      CountBound(tasks[..|tasks| - 1]);
    }
  }

  // Done or cancelled.
  predicate Resolves(t: View) {
    t.status.Finished? || t.status.Dropped?
  }

  // Blocked, or waiting for a reason, and not done or cancelled.
  predicate Waits(t: View) {
    !Resolves(t) && (t.status.Blocked? || t.reason != "")
  }

  // In progress or in review, and not waiting.
  predicate Moves(t: View) {
    (t.status.InProgress? || t.status.ReadyForReview?) && t.reason == ""
  }

  // What the state of a capture says about its promoted tasks, on their statuses.
  lemma RollupMeaning(idea: TicketId, tasks: seq<View>)
    ensures
      var promoted := Under(tasks, idea);
      var r := Rollup(CountOf(promoted, TaskState.Finished), CountOf(promoted, Held), CountOf(promoted, Active),
                      CountOf(promoted, Waiting), |promoted|);
      && r.total == r.done + r.blocked + r.active + r.todo
      && (r.done > 0 <==> exists t :: t in promoted && Resolves(t))
      && (r.blocked > 0 <==> exists t :: t in promoted && Waits(t))
      && (r.active > 0 <==> exists t :: t in promoted && Moves(t))
      && (IdeaRollup(r).IdeaFinished? <==> promoted != [] && forall t :: t in promoted ==> Resolves(t))
      && (IdeaRollup(r).IdeaBlocked? <==> exists t :: t in promoted && Waits(t))
      && (IdeaRollup(r).Captured? <==> forall t :: t in promoted ==> t.status.Todo? && t.reason == "")
  {
    hide Under;
    var promoted := Under(tasks, idea);
    CountsAddUp(promoted);
    forall t: View
      ensures StateOf(t).Finished? <==> Resolves(t)
      ensures StateOf(t).Held? <==> Waits(t)
      ensures StateOf(t).Active? <==> Moves(t)
      ensures StateOf(t).Waiting? <==> t.status.Todo? && t.reason == ""
    {
    }
  }
}
