/**
 * The task list's `filteredTasks`: the tasks kept by four ANDed criteria
 * (status, priority, starred-only, case-insensitive title search), in the
 * order of the loaded list.
 */
module DashboardFilter {
  import opened Text
  import opened Tasks

  /** A task as the dashboard receives it from GET /tasks/ (its `id` is always a number). */
  datatype Task = Task(
    id: int,
    title: string,
    description: string,
    dueDate: string,
    priority: Priority,
    status: Status,
    starred: bool)

  /** The four filter state values: `filterStatus`, `filterPriority`, `showStarred`, `searchQuery`. */
  datatype Criteria = Criteria(status: string, priority: string, starredOnly: bool, search: string)

  /** The select value meaning "no constraint". */
  const All := "ALL"

  /** The criteria in force when the page is first shown. */
  const NoCriteria := Criteria(All, All, false, "")

  predicate MatchesStatus(t: Task, c: Criteria)
  {
    c.status == All || StatusName(t.status) == c.status
  }

  predicate MatchesPriority(t: Task, c: Criteria)
  {
    c.priority == All || PriorityName(t.priority) == c.priority
  }

  predicate MatchesStarred(t: Task, c: Criteria)
  {
    !c.starredOnly || t.starred
  }

  predicate MatchesSearch(t: Task, c: Criteria)
  {
    Includes(ToLower(t.title), ToLower(c.search))
  }

  predicate Matches(t: Task, c: Criteria)
  {
    MatchesStatus(t, c) && MatchesPriority(t, c) && MatchesStarred(t, c) && MatchesSearch(t, c)
  }

  /** `tasks.filter(...)`: the matching tasks, none added, in their original order. */
  function FilteredTasks(tasks: seq<Task>, c: Criteria): (r: seq<Task>)
    ensures |r| <= |tasks|
    ensures forall k :: 0 <= k < |r| ==> Matches(r[k], c)
  {
    if tasks == [] then []
    else if Matches(tasks[0], c) then [tasks[0]] + FilteredTasks(tasks[1..], c)
    else FilteredTasks(tasks[1..], c)
  }

  /** A task is shown iff it is in the list and all four criteria hold of it. */
  lemma {:induction false} FilterMembership(tasks: seq<Task>, c: Criteria, t: Task)
    ensures t in FilteredTasks(tasks, c) <==>
      t in tasks && MatchesStatus(t, c) && MatchesPriority(t, c) && MatchesStarred(t, c) && MatchesSearch(t, c)
  {
    if tasks != [] {
      FilterMembership(tasks[1..], c, t);
      assert tasks == [tasks[0]] + tasks[1..];
    }
  }

  /**
   * The filtered list is an order-preserving subsequence of `tasks` that keeps
   * every matching position: `idx` gives, for each shown task, the strictly
   * increasing position it came from, and every matching position is among them.
   */
  lemma {:induction false} FilterIsOrderedSubsequence(tasks: seq<Task>, c: Criteria) returns (idx: seq<nat>)
    ensures IsSelection(idx, FilteredTasks(tasks, c), tasks, c)
  {
    if tasks == [] {
      idx := [];
    } else {
      var rest := FilterIsOrderedSubsequence(tasks[1..], c);
      if Matches(tasks[0], c) {
        idx := SelectionKeepHead(tasks, c, rest);
      } else {
        idx := SelectionDropHead(tasks, c, rest);
      }
    }
  }

  /**
   * `idx` lists, strictly increasing, the positions in `tasks` that `shown`
   * came from, and every position whose task matches is among them.
   */
  ghost predicate IsSelection(idx: seq<nat>, shown: seq<Task>, tasks: seq<Task>, c: Criteria)
  {
    ListsPositions(idx, shown, tasks) && CoversMatches(idx, tasks, c)
  }

  /** `idx` gives, strictly increasing, the position in `tasks` of each element of `shown`. */
  ghost predicate ListsPositions(idx: seq<nat>, shown: seq<Task>, tasks: seq<Task>)
  {
    && |idx| == |shown|
    && (forall k :: 0 <= k < |idx| ==> idx[k] < |tasks| && shown[k] == tasks[idx[k]])
    && (forall j, k :: 0 <= j < k < |idx| ==> idx[j] < idx[k])
  }

  /** Every position of a matching task is in `idx`. */
  ghost predicate CoversMatches(idx: seq<nat>, tasks: seq<Task>, c: Criteria)
  {
    forall i :: 0 <= i < |tasks| && Matches(tasks[i], c) ==> i in idx
  }

  /** The inductive step when the head of `tasks` matches. */
  lemma SelectionKeepHead(tasks: seq<Task>, c: Criteria, rest: seq<nat>) returns (idx: seq<nat>)
    requires tasks != [] && Matches(tasks[0], c)
    requires IsSelection(rest, FilteredTasks(tasks[1..], c), tasks[1..], c)
    ensures IsSelection(idx, FilteredTasks(tasks, c), tasks, c)
  {
    idx := [0] + Shifted(rest);
    assert FilteredTasks(tasks, c) == [tasks[0]] + FilteredTasks(tasks[1..], c);
    PositionsKeepHead(tasks, FilteredTasks(tasks[1..], c), rest);
    CoverKeepHead(tasks, c, rest);
  }

  lemma PositionsKeepHead(tasks: seq<Task>, shownRest: seq<Task>, rest: seq<nat>)
    requires tasks != []
    requires ListsPositions(rest, shownRest, tasks[1..])
    ensures ListsPositions([0] + Shifted(rest), [tasks[0]] + shownRest, tasks)
  {
    var idx := [0] + Shifted(rest);
    var shown := [tasks[0]] + shownRest;
    forall k | 0 <= k < |idx|
      ensures idx[k] < |tasks| && shown[k] == tasks[idx[k]]
    {
      if k > 0 {
        assert idx[k] == rest[k - 1] + 1;
        assert shown[k] == shownRest[k - 1] == tasks[1..][rest[k - 1]];
      }
    }
    forall j, k | 0 <= j < k < |idx|
      ensures idx[j] < idx[k]
    {
      if j > 0 {
        assert idx[j] == rest[j - 1] + 1 && idx[k] == rest[k - 1] + 1;
      }
    }
  }

  lemma CoverKeepHead(tasks: seq<Task>, c: Criteria, rest: seq<nat>)
    requires tasks != []
    requires CoversMatches(rest, tasks[1..], c)
    ensures CoversMatches([0] + Shifted(rest), tasks, c)
  {
    var shifted := Shifted(rest);
    forall i | 0 <= i < |tasks| && Matches(tasks[i], c)
      ensures i in [0] + shifted
    {
      if i > 0 {
        assert tasks[1..][i - 1] == tasks[i];
        assert i in shifted;
      }
    }
  }

  /** The inductive step when the head of `tasks` does not match. */
  lemma SelectionDropHead(tasks: seq<Task>, c: Criteria, rest: seq<nat>) returns (idx: seq<nat>)
    requires tasks != [] && !Matches(tasks[0], c)
    requires IsSelection(rest, FilteredTasks(tasks[1..], c), tasks[1..], c)
    ensures IsSelection(idx, FilteredTasks(tasks, c), tasks, c)
  {
    idx := Shifted(rest);
    assert FilteredTasks(tasks, c) == FilteredTasks(tasks[1..], c);
    forall i | 0 <= i < |tasks| && Matches(tasks[i], c)
      ensures i in idx
    {
      assert i > 0;
      assert tasks[1..][i - 1] == tasks[i];
    }
  }

  /** Every position moved one place to the right, as after dropping the head of a list. */
  function Shifted(idx: seq<nat>): (r: seq<nat>)
    ensures |r| == |idx|
    ensures forall k :: 0 <= k < |r| ==> r[k] == idx[k] + 1
    ensures forall i :: i - 1 in idx ==> i in r
  {
    seq(|idx|, k requires 0 <= k < |idx| => idx[k] + 1)
  }

  /** Filtering an already filtered list changes nothing. */
  lemma {:induction false} FilterIdempotent(tasks: seq<Task>, c: Criteria)
    ensures FilteredTasks(FilteredTasks(tasks, c), c) == FilteredTasks(tasks, c)
  {
    if tasks != [] {
      FilterIdempotent(tasks[1..], c);
      var rest := FilteredTasks(tasks[1..], c);
      if Matches(tasks[0], c) {
        assert ([tasks[0]] + rest)[1..] == rest;
      }
    }
  }

  /** With no criterion in force ('ALL', 'ALL', starred off, empty search) every task is shown, in order. */
  lemma {:induction false} NoCriteriaShowsAll(tasks: seq<Task>)
    ensures FilteredTasks(tasks, NoCriteria) == tasks
  {
    if tasks != [] {
      NoCriteriaShowsAll(tasks[1..]);
      IncludesEmpty(ToLower(tasks[0].title));
      assert ToLower(NoCriteria.search) == "";
      assert Matches(tasks[0], NoCriteria);
      assert tasks == [tasks[0]] + tasks[1..];
    }
  }

  /** Status 'ALL' places no constraint on status: changing a task's status never changes whether it matches. */
  lemma StatusAllUnconstrained(t: Task, c: Criteria, s: Status)
    requires c.status == All
    ensures Matches(t, c) == Matches(t.(status := s), c)
  {
  }

  /** Priority 'ALL' places no constraint on priority. */
  lemma PriorityAllUnconstrained(t: Task, c: Criteria, p: Priority)
    requires c.priority == All
    ensures Matches(t, c) == Matches(t.(priority := p), c)
  {
  }

  /** Starred-only off places no constraint on `starred`; on, every shown task is starred. */
  lemma StarredCriterion(tasks: seq<Task>, c: Criteria, t: Task)
    ensures !c.starredOnly ==> Matches(t, c) == Matches(t.(starred := !t.starred), c)
    ensures c.starredOnly ==> forall u :: u in FilteredTasks(tasks, c) ==> u.starred
  {
  }

  /** Selecting a real status shows only tasks of exactly that status. */
  lemma StatusExactMatch(tasks: seq<Task>, c: Criteria, s: Status)
    requires c.status == StatusName(s)
    ensures forall u :: u in FilteredTasks(tasks, c) ==> u.status == s
  {
  }

  /** Selecting a real priority shows only tasks of exactly that priority. */
  lemma PriorityExactMatch(tasks: seq<Task>, c: Criteria, p: Priority)
    requires c.priority == PriorityName(p)
    ensures forall u :: u in FilteredTasks(tasks, c) ==> u.priority == p
  {
  }

  /** A status filter that is neither 'ALL' nor a status name (the filter is a plain string) shows nothing. */
  lemma {:induction false} UnknownStatusShowsNothing(tasks: seq<Task>, c: Criteria)
    requires c.status != All
    requires forall s: Status :: StatusName(s) != c.status
    ensures FilteredTasks(tasks, c) == []
  {
    if tasks != [] {
      UnknownStatusShowsNothing(tasks[1..], c);
      assert !MatchesStatus(tasks[0], c);
    }
  }

  /**
   * The search is a case-insensitive substring test on the title: the
   * lower-cased query occurs somewhere in the lower-cased title. An empty
   * query matches every title.
   */
  lemma SearchIsCaseInsensitiveSubstring(t: Task, c: Criteria)
    ensures MatchesSearch(t, c) <==> exists i :: OccursAt(ToLower(c.search), ToLower(t.title), i)
    ensures c.search == "" ==> MatchesSearch(t, c)
  {
    IncludesIsSubstring(ToLower(t.title), ToLower(c.search));
    if c.search == "" {
      assert ToLower(c.search) == "";
      IncludesEmpty(ToLower(t.title));
    }
  }

  /** Titles or queries that agree up to ASCII case match alike. */
  lemma SearchIgnoresCase(t: Task, c: Criteria, title: string, query: string)
    requires ToLower(title) == ToLower(t.title) && ToLower(query) == ToLower(c.search)
    ensures MatchesSearch(t, c) == MatchesSearch(t.(title := title), c.(search := query))
  {
  }

  /**
   * Two tasks, one pending and unstarred, one completed and starred; with only
   * starred-only on, just the second is shown.
   */
  lemma StarredOnlyScenario()
    ensures
      var milk := Task(1, "Buy milk", "", "", Low, Pending, false);
      var ship := Task(2, "Ship release", "", "", High, Completed, true);
      FilteredTasks([milk, ship], Criteria(All, All, true, "")) == [ship]
  {
  }
}
