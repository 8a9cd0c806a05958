/** The dependency graph of a managed Run, as managed_contracts.py validates it: a list of ready
    tasks is emptied, and tasks that never become ready lie on or behind a cycle. */
module TaskGraph {

  datatype Task = Task(id: string, dependencies: seq<string>)

  function Ids(tasks: seq<Task>): set<string> { set t | t in tasks :: t.id }

  /** The dependencies of a task, by identifier. */
  function DepsOf(tasks: seq<Task>, id: string): set<string>
  {
    set t, d | t in tasks && t.id == id && d in t.dependencies :: d
  }

  predicate Distinct(s: seq<string>) { forall i, j :: 0 <= i < j < |s| ==> s[i] != s[j] }

  predicate UniqueIds(tasks: seq<Task>) { forall i, j :: 0 <= i < j < |tasks| ==> tasks[i].id != tasks[j].id }

  /** What the declarations have already checked when the graph is validated. */
  predicate WellDeclared(tasks: seq<Task>)
  {
    && UniqueIds(tasks)
    && (forall t :: t in tasks ==> Distinct(t.dependencies))
    && (forall t, d :: t in tasks && d in t.dependencies ==> d in Ids(tasks))
  }

  /** A walk from each task to one of its dependencies. */
  predicate Walk(tasks: seq<Task>, p: seq<string>)
  {
    forall i, j :: 0 <= i < |p| && 0 <= j < |p| && j == i + 1 ==> p[j] in DepsOf(tasks, p[i])
  }

  predicate Cycle(tasks: seq<Task>, p: seq<string>)
  {
    |p| >= 2 && p[0] == p[|p| - 1] && Walk(tasks, p)
  }

  ghost predicate Acyclic(tasks: seq<Task>)
  {
    forall p: seq<string> :: !Cycle(tasks, p)
  }

  // ---------------------------------------------------------------- why the answer is right

  /** Tasks in an order in which every dependency comes first. */
  ghost predicate Ordered(tasks: seq<Task>, order: seq<string>)
  {
    && Distinct(order)
    && forall i, d :: 0 <= i < |order| && d in DepsOf(tasks, order[i]) ==> d in order[..i]
  }

  lemma {:induction false} WalkGoesDown(tasks: seq<Task>, order: seq<string>, p: seq<string>, i: nat)
    requires Ordered(tasks, order) && Walk(tasks, p) && 0 < |p| && i < |order| && p[0] == order[i]
    ensures |p| > 1 ==> p[|p| - 1] in order[..i]
    decreases |p|
  {
    if |p| > 1 {
      assert p[1] in DepsOf(tasks, p[0]);
      var j :| 0 <= j < i && order[j] == p[1];
      assert Walk(tasks, p[1..]) by {
        forall k, l | 0 <= k && l == k + 1 && l < |p[1..]| ensures p[1..][l] in DepsOf(tasks, p[1..][k]) {
          assert p[l + 1] in DepsOf(tasks, p[k + 1]);
        }
      }
      WalkGoesDown(tasks, order, p[1..], j);
    }
  }

  lemma OrderedIsAcyclic(tasks: seq<Task>, order: seq<string>)
    requires Ordered(tasks, order) && Ids(tasks) <= set x | x in order
    ensures Acyclic(tasks)
  {
    forall p: seq<string> ensures !Cycle(tasks, p) {
      if Cycle(tasks, p) {
        assert p[1] in DepsOf(tasks, p[0]);
        assert p[0] in Ids(tasks);
        var i :| 0 <= i < |order| && order[i] == p[0];
        WalkGoesDown(tasks, order, p, i);
      }
    }
  }

  /** Every task of the set has a dependency in the set. */
  ghost predicate Stuck(tasks: seq<Task>, stuck: set<string>)
  {
    forall x :: x in stuck ==> HasNext(tasks, stuck, x)
  }

  ghost predicate HasNext(tasks: seq<Task>, stuck: set<string>, x: string)
  {
    exists d :: d in stuck && d in DepsOf(tasks, x)
  }

  /** From such a set one can walk for ever. */
  lemma {:induction false} LongWalk(tasks: seq<Task>, stuck: set<string>, n: nat) returns (p: seq<string>)
    requires stuck != {} && Stuck(tasks, stuck)
    ensures |p| == n + 1 && Walk(tasks, p) && forall i :: 0 <= i < |p| ==> p[i] in stuck
    decreases n
  {
    hide DepsOf;
    if n == 0 {
      var x :| x in stuck;
      p := [x];
    } else {
      var rest := LongWalk(tasks, stuck, n - 1);
      assert HasNext(tasks, stuck, rest[n - 1]);
      var d :| d in stuck && d in DepsOf(tasks, rest[n - 1]);
      hide Stuck, HasNext;
      Lengthen(tasks, rest, d);
      p := rest + [d];
    }
  }

  lemma Lengthen(tasks: seq<Task>, p: seq<string>, d: string)
    requires p != [] && Walk(tasks, p) && d in DepsOf(tasks, p[|p| - 1])
    ensures Walk(tasks, p + [d])
  {
    hide DepsOf;
  }

  lemma Segment(tasks: seq<Task>, p: seq<string>, i: nat, j: nat)
    requires Walk(tasks, p) && i <= j < |p|
    ensures Walk(tasks, p[i..j + 1])
  {
    hide DepsOf;
    var c := p[i..j + 1];
    forall k, l | 0 <= k && l == k + 1 && l < |c| ensures c[l] in DepsOf(tasks, c[k]) {
      assert p[i + l] in DepsOf(tasks, p[i + k]);
    }
  }

  /** A sequence longer than the set it draws from repeats an element. */
  lemma {:induction false} Repeats(p: seq<string>, s: set<string>)
    requires |p| > |s| && forall k :: 0 <= k < |p| ==> p[k] in s
    ensures exists i, j :: 0 <= i < j < |p| && p[i] == p[j]
    decreases |s|
  {
    var last := p[|p| - 1];
    if last in p[..|p| - 1] {
      var i :| 0 <= i < |p| - 1 && p[i] == last;
    } else {
      var rest := p[..|p| - 1];
      forall k | 0 <= k < |rest| ensures rest[k] in s - {last} {
        assert rest[k] == p[k] && rest[k] in rest;
      }
      Repeats(rest, s - {last});
      var i, j :| 0 <= i < j < |rest| && rest[i] == rest[j];
      assert p[i] == p[j];
    }
  }

  lemma StuckHasCycle(tasks: seq<Task>, stuck: set<string>)
    requires stuck != {} && Stuck(tasks, stuck)
    ensures !Acyclic(tasks)
  {
    hide DepsOf, Walk, Stuck;
    var p := LongWalk(tasks, stuck, |stuck|);
    Repeats(p, stuck);
    var i, j :| 0 <= i < j < |p| && p[i] == p[j];
    Segment(tasks, p, i, j);
    assert Cycle(tasks, p[i..j + 1]);
  }

  // ---------------------------------------------------------------- the ready list

  function Seen(s: seq<string>): set<string> { set x | x in s }

  /** The dependencies of a task that are still to come. */
  function Waiting(tasks: seq<Task>, done: seq<string>, x: string): set<string>
  {
    DepsOf(tasks, x) - Seen(done)
  }

  lemma DepsOfTask(tasks: seq<Task>, i: nat)
    requires WellDeclared(tasks) && i < |tasks|
    ensures DepsOf(tasks, tasks[i].id) == Seen(tasks[i].dependencies)
    ensures |DepsOf(tasks, tasks[i].id)| == |tasks[i].dependencies|
  {
    assert tasks[i] in tasks;
    assert forall t :: t in tasks && t.id == tasks[i].id ==> t == tasks[i];
    SeenSize(tasks[i].dependencies);
  }

  lemma {:induction false} SeenSize(s: seq<string>)
    requires Distinct(s)
    ensures |Seen(s)| == |s|
    decreases |s|
  {
    if s != [] {
      var rest := s[..|s| - 1];
      SeenSize(rest);
      assert Seen(s) == Seen(rest) + {s[|s| - 1]};
    }
  }

  /** Every task with those that depend on it, each listed once. */
  ghost predicate RightDependents(tasks: seq<Task>, dependents: map<string, seq<string>>)
  {
    && dependents.Keys == Ids(tasks)
    && forall d :: d in dependents ==>
         Distinct(dependents[d]) && forall x :: x in dependents[d] <==> x in Ids(tasks) && d in DepsOf(tasks, x)
  }

  method BuildDependents(tasks: seq<Task>) returns (dependents: map<string, seq<string>>)
    requires WellDeclared(tasks)
    ensures RightDependents(tasks, dependents)
  {
    dependents := map x | x in Ids(tasks) :: [];
    var i := 0;
    while i < |tasks|
      invariant 0 <= i <= |tasks| && dependents.Keys == Ids(tasks)
      invariant forall d :: d in dependents ==> Distinct(dependents[d])
      invariant forall d, x :: d in dependents ==>
        (x in dependents[d] <==> exists k :: 0 <= k < i && tasks[k].id == x && d in tasks[k].dependencies)
    {
      dependents := AddDependent(tasks, i, dependents);
      i := i + 1;
    }
    forall d, x | d in dependents ensures x in dependents[d] <==> x in Ids(tasks) && d in DepsOf(tasks, x) {
      if x in Ids(tasks) && d in DepsOf(tasks, x) {
        var t :| t in tasks && t.id == x && d in t.dependencies;
        var k :| 0 <= k < |tasks| && tasks[k] == t;
      }
    }
  }

  /** One task is added to the lists of its dependencies. */
  method AddDependent(tasks: seq<Task>, i: nat, before: map<string, seq<string>>) returns (after: map<string, seq<string>>)
    requires WellDeclared(tasks) && i < |tasks| && before.Keys == Ids(tasks)
    requires Unlisted(before, tasks[i].id)
    ensures after.Keys == Ids(tasks) && Listed(before, after, tasks[i].dependencies, tasks[i].id)
    ensures forall d :: d in after ==> Distinct(after[d])
  {
    after := before;
    var values := tasks[i].dependencies;
    ListedNowhere(before, tasks[i].id, values);
    hide WellDeclared, Ids, Listed, Distinct, Unlisted;
    var j := 0;
    while j < |values|
      invariant 0 <= j <= |values| && Listed(before, after, values[..j], tasks[i].id)
    {
      DependsOnce(tasks, i, j);
      Listing(before, after, values, j, tasks[i].id);
      after := after[values[j] := after[values[j]] + [tasks[i].id]];
      j := j + 1;
    }
    StaysDistinct(before, after, values, tasks[i].id);
  }

  predicate Unlisted(before: map<string, seq<string>>, id: string)
  {
    forall d :: d in before ==> Distinct(before[d]) && id !in before[d]
  }

  /** The identifier stands last under each of these and nothing else has changed. */
  predicate Listed(before: map<string, seq<string>>, after: map<string, seq<string>>, under: seq<string>, id: string)
  {
    && after.Keys == before.Keys
    && forall d :: d in after ==> after[d] == if d in under then before[d] + [id] else before[d]
  }

  lemma Listing(before: map<string, seq<string>>, after: map<string, seq<string>>, under: seq<string>, j: nat, id: string)
    requires j < |under| && Listed(before, after, under[..j], id) && under[j] !in under[..j] && under[j] in before
    ensures under[j] in after && Listed(before, after[under[j] := after[under[j]] + [id]], under[..j + 1], id)
  {
    assert under[..j + 1] == under[..j] + [under[j]];
  }

  lemma StaysDistinct(before: map<string, seq<string>>, after: map<string, seq<string>>, under: seq<string>, id: string)
    requires Listed(before, after, under[..|under|], id) && Unlisted(before, id)
    ensures after.Keys == before.Keys && Listed(before, after, under, id)
    ensures forall d :: d in after ==> Distinct(after[d])
  {
    assert under[..|under|] == under;
  }

  lemma ListedNowhere(before: map<string, seq<string>>, id: string, under: seq<string>)
    ensures Listed(before, before, under[..0], id)
  {
  }

  lemma DependsOnce(tasks: seq<Task>, i: nat, j: nat)
    requires WellDeclared(tasks) && i < |tasks| && j < |tasks[i].dependencies|
    ensures var values := tasks[i].dependencies; values[j] in Ids(tasks) && values[j] !in values[..j]
  {
    assert tasks[i] in tasks;
    hide Ids;
  }

  /** The loop's state: `done` tasks were taken from the ready list, in this order. */
  ghost predicate Sorting(tasks: seq<Task>, indegree: map<string, nat>, ready: seq<string>, done: seq<string>)
  {
    && indegree.Keys == Ids(tasks)
    && Ordered(tasks, done) && Seen(done) <= Ids(tasks)
    && (forall x :: x in indegree ==> indegree[x] == |Waiting(tasks, done, x)|)
    && ReadyNow(indegree, ready, done)
  }

  ghost predicate ReadyNow(indegree: map<string, nat>, ready: seq<string>, done: seq<string>)
  {
    && Distinct(ready)
    && forall x :: x in ready <==> x in indegree && indegree[x] == 0 && x !in done
  }

  /** A ready task has all its dependencies done, so it may come next in the order. */
  lemma ReadyComesNext(tasks: seq<Task>, done: seq<string>, task: string)
    requires Ordered(tasks, done) && DepsOf(tasks, task) <= Seen(done) && task !in done
    ensures Ordered(tasks, done + [task]) && Distinct(done + [task])
  {
    hide DepsOf;
    var more := done + [task];
    forall i, d | 0 <= i < |more| && d in DepsOf(tasks, more[i]) ensures d in more[..i] {
      if i < |done| {
        assert d in done[..i];
        assert more[..i] == done[..i];
      } else {
        assert more[..i] == done;
        assert d in Seen(done);
      }
    }
  }

  /** Who waits for a task waits for one less afterwards. */
  lemma WaitingLess(tasks: seq<Task>, done: seq<string>, task: string, x: string)
    requires task !in done
    ensures |Waiting(tasks, done, x)| == |Waiting(tasks, done + [task], x)| + if task in DepsOf(tasks, x) then 1 else 0
  {
    hide DepsOf;
    assert Seen(done + [task]) == Seen(done) + {task};
    if task in DepsOf(tasks, x) {
      assert Waiting(tasks, done + [task], x) == Waiting(tasks, done, x) - {task};
      assert task in Waiting(tasks, done, x);
    } else {
      assert Waiting(tasks, done + [task], x) == Waiting(tasks, done, x);
    }
  }

  lemma TakeReady(tasks: seq<Task>, indegree: map<string, nat>, ready: seq<string>, done: seq<string>, task: string)
    requires Sorting(tasks, indegree, ready, done) && task in ready
    ensures Ordered(tasks, done + [task]) && Distinct(done + [task])
    ensures task !in done && task in indegree && Seen(done + [task]) <= Ids(tasks)
    ensures DepsOf(tasks, task) <= Seen(done)
    ensures forall x :: x in indegree ==>
      indegree[x] == |Waiting(tasks, done + [task], x)| + if task in DepsOf(tasks, x) then 1 else 0
  {
    hide DepsOf, Ordered;
    assert task in indegree && indegree[task] == 0 && task !in done by { hide Waiting; }
    NothingWaiting(tasks, done, task);
    hide Waiting;
    ReadyComesNext(tasks, done, task);
    forall x | x in indegree
      ensures indegree[x] == |Waiting(tasks, done + [task], x)| + if task in DepsOf(tasks, x) then 1 else 0
    {
      WaitingLess(tasks, done, task, x);
    }
  }

  lemma NothingWaiting(tasks: seq<Task>, done: seq<string>, x: string)
    requires |Waiting(tasks, done, x)| == 0
    ensures DepsOf(tasks, x) <= Seen(done)
  {
    hide DepsOf;
    assert forall d :: d in DepsOf(tasks, x) ==> d !in Waiting(tasks, done, x) ==> d in Seen(done);
  }

  /** What waits for a task that was just taken is not done itself. */
  lemma ChildrenPending(tasks: seq<Task>, done: seq<string>, task: string, x: string)
    requires Ordered(tasks, done) && task !in done && DepsOf(tasks, task) <= Seen(done) && task in DepsOf(tasks, x)
    ensures x !in done + [task]
  {
    hide DepsOf;
    assert forall i :: 0 <= i < |done| ==> done[i] != x;
  }

  /** Tasks left over when nothing is ready wait for each other. */
  lemma LeftOver(tasks: seq<Task>, indegree: map<string, nat>, done: seq<string>)
    requires WellDeclared(tasks) && Sorting(tasks, indegree, [], done)
    ensures Acyclic(tasks) <==> |done| == |Ids(tasks)|
  {
    assert Distinct(done) by { hide DepsOf; }
    SeenSize(done);
    var stuck := Ids(tasks) - Seen(done);
    if stuck == {} {
      hide DepsOf, Acyclic;
      SameSize(Seen(done), Ids(tasks));
      OrderedIsAcyclic(tasks, done);
    } else {
      assert |done| != |Ids(tasks)| by { StrictlySmaller(Seen(done), Ids(tasks)); }
      forall x | x in stuck ensures HasNext(tasks, stuck, x) {
        WaitsForStuck(tasks, indegree, done, x);
      }
      hide DepsOf, Acyclic, Sorting;
      StuckHasCycle(tasks, stuck);
    }
  }

  lemma WaitsForStuck(tasks: seq<Task>, indegree: map<string, nat>, done: seq<string>, x: string)
    requires WellDeclared(tasks) && Sorting(tasks, indegree, [], done) && x in Ids(tasks) && x !in done
    ensures HasNext(tasks, Ids(tasks) - Seen(done), x)
  {
    assert Waiting(tasks, done, x) != {} by { hide DepsOf, Ordered; }
    var d :| d in Waiting(tasks, done, x);
    hide Sorting;
    assert d in DepsOf(tasks, x) && d in Ids(tasks);
  }

  lemma StrictlySmaller(a: set<string>, b: set<string>)
    requires a <= b && b - a != {}
    ensures |a| < |b|
  {
    assert b == a + (b - a);
  }

  lemma SameSize(a: set<string>, b: set<string>)
    requires a <= b && b - a == {}
    ensures a == b
  {
    assert forall x :: x in b ==> x !in b - a;
  }

  lemma Smaller(a: set<string>, b: set<string>)
    requires a <= b
    ensures |a| <= |b|
  {
    assert b == a + (b - a);
  }

  lemma {:induction false} IdsSize(tasks: seq<Task>)
    requires UniqueIds(tasks)
    ensures |Ids(tasks)| == |tasks|
    decreases |tasks|
  {
    if tasks != [] {
      var rest := tasks[..|tasks| - 1];
      IdsSize(rest);
      assert Ids(tasks) == Ids(rest) + {tasks[|tasks| - 1].id};
    }
  }

  /** How many dependencies each task has, and which have none. */
  method CountDependencies(tasks: seq<Task>) returns (indegree: map<string, nat>, ready: seq<string>)
    requires WellDeclared(tasks)
    ensures Sorting(tasks, indegree, ready, [])
  {
    indegree, ready := map[], [];
    var i := 0;
    while i < |tasks|
      invariant 0 <= i <= |tasks|
      invariant indegree.Keys == Ids(tasks[..i])
      invariant forall x :: x in indegree ==> indegree[x] == |DepsOf(tasks, x)|
      invariant Distinct(ready)
      invariant forall x :: x in ready <==> x in indegree && indegree[x] == 0
    {
      var task := tasks[i];
      DepsOfTask(tasks, i);
      assert tasks[..i + 1] == tasks[..i] + [task];
      assert task.id !in Ids(tasks[..i]);
      indegree := indegree[task.id := |task.dependencies|];
      if |task.dependencies| == 0 {
        ready := ready + [task.id];
      }
      i := i + 1;
    }
    assert tasks[..i] == tasks;
    forall x | x in indegree ensures indegree[x] == |Waiting(tasks, [], x)| {
      assert Waiting(tasks, [], x) == DepsOf(tasks, x);
    }
  }

  /** One dependency less for every dependent of a finished task; those with none left are ready. */
  method ReleaseChildren(
    tasks: seq<Task>, children: seq<string>, task: string, before: map<string, nat>, queued: seq<string>, ghost done: seq<string>)
    returns (indegree: map<string, nat>, ready: seq<string>)
    requires before.Keys == Ids(tasks) && Ordered(tasks, done) && Seen(done) <= Ids(tasks)
    requires Distinct(children) && forall x :: x in children <==> x in Ids(tasks) && task in DepsOf(tasks, x)
    requires forall x :: x in before ==>
      before[x] == |Waiting(tasks, done, x)| + if task in DepsOf(tasks, x) then 1 else 0
    requires ReadyNow(before, queued, done)
    requires forall x :: x in children ==> x !in done
    ensures Sorting(tasks, indegree, ready, done)
  {
    hide DepsOf, Ordered, Waiting;
    indegree, ready := before, queued;
    var i := 0;
    while i < |children|
      invariant 0 <= i <= |children| && indegree.Keys == Ids(tasks)
      invariant forall x :: x in indegree ==>
        indegree[x] == |Waiting(tasks, done, x)| + if x in children[i..] then 1 else 0
      invariant ReadyNow(indegree, ready, done)
    {
      var child := children[i];
      assert child in children[i..] && child in children;
      assert child !in children[i + 1..];
      assert children[i..] == [child] + children[i + 1..];
      indegree := indegree[child := indegree[child] - 1];
      if indegree[child] == 0 {
        ready := ready + [child];
      }
      i := i + 1;
    }
  }

  /** The graph is accepted exactly when it has no dependency cycle. */
  method ValidateAcyclic(tasks: seq<Task>) returns (ok: bool)
    requires WellDeclared(tasks)
    ensures ok <==> Acyclic(tasks)
  {
    hide DepsOf, Ordered, Acyclic, WellDeclared, Waiting;
    var dependents := BuildDependents(tasks);
    var indegree, ready := CountDependencies(tasks);
    var visited := 0;
    ghost var done: seq<string> := [];
    while ready != []
      invariant Sorting(tasks, indegree, ready, done)
      invariant visited == |done| <= |Ids(tasks)|
      decreases |Ids(tasks)| - |done|
    {
      var task := ready[|ready| - 1];
      assert task in ready;
      TakeReady(tasks, indegree, ready, done, task);
      ghost var more := done + [task];
      SeenSize(more);
      Smaller(Seen(more), Ids(tasks));
      forall x | x in dependents[task] ensures x !in more {
        ChildrenPending(tasks, done, task, x);
      }
      indegree, ready := ReleaseChildren(tasks, dependents[task], task, indegree, ready[..|ready| - 1], more);
      visited := visited + 1;
      done := more;
    }
    LeftOver(tasks, indegree, done);
    assert UniqueIds(tasks) by { Declared(tasks); }
    IdsSize(tasks);
    return visited == |tasks|;
  }

  lemma Declared(tasks: seq<Task>)
    requires WellDeclared(tasks)
    ensures UniqueIds(tasks)
  {
  }

  // ---------------------------------------------------------------- the declarations

  /** A sequence has no duplicates exactly if it is as long as its set. */
  lemma {:induction false} DistinctBySize(s: seq<string>)
    ensures |Seen(s)| <= |s| && (|Seen(s)| == |s| <==> Distinct(s))
    decreases |s|
  {
    if s != [] {
      var rest, last := s[..|s| - 1], s[|s| - 1];
      DistinctBySize(rest);
      assert Seen(s) == Seen(rest) + {last};
      if last in Seen(rest) {
        assert Seen(s) == Seen(rest);
        var i :| 0 <= i < |rest| && rest[i] == last;
      } else if Distinct(rest) {
        assert Distinct(s);
      } else {
        var i, j :| 0 <= i < j < |rest| && rest[i] == rest[j];
        assert s[i] == s[j];
      }
    }
  }

  lemma UniqueAppend(rest: seq<Task>, last: Task)
    ensures Ids(rest + [last]) == Ids(rest) + {last.id}
    ensures UniqueIds(rest + [last]) <==> UniqueIds(rest) && last.id !in Ids(rest)
  {
    var tasks := rest + [last];
    assert Ids(tasks) == Ids(rest) + {last.id} by {
      forall id | id in Ids(rest) ensures id in Ids(tasks) {
        var i :| 0 <= i < |rest| && rest[i].id == id;
        assert tasks[i].id == id;
      }
      assert tasks[|rest|].id == last.id;
    }
    assert forall i :: 0 <= i < |rest| ==> tasks[i] == rest[i];
    if last.id in Ids(rest) {
      var i :| 0 <= i < |rest| && rest[i].id == last.id;
      assert tasks[i].id == tasks[|rest|].id;
    }
  }

  lemma {:induction false} UniqueBySize(tasks: seq<Task>)
    ensures |Ids(tasks)| <= |tasks| && (|Ids(tasks)| == |tasks| <==> UniqueIds(tasks))
    decreases |tasks|
  {
    if tasks != [] {
      var rest, last := tasks[..|tasks| - 1], tasks[|tasks| - 1];
      UniqueBySize(rest);
      UniqueAppend(rest, last);
      assert tasks == rest + [last];
      hide Ids, UniqueIds;
      if last.id in Ids(rest) { assert Ids(rest) + {last.id} == Ids(rest); }
    }
  }

  /** Declarations are accepted exactly when they describe a graph without duplicates, unknown
      dependencies or cycles. */
  method AcceptTasks(tasks: seq<Task>) returns (ok: bool)
    ensures ok <==> tasks != [] && WellDeclared(tasks) && Acyclic(tasks)
  {
    hide DepsOf, Seen;
    if tasks == [] {
      return false;
    }
    var i := 0;
    while i < |tasks|
      invariant 0 <= i <= |tasks|
      invariant forall k :: 0 <= k < i ==> Distinct(tasks[k].dependencies)
    {
      DistinctBySize(tasks[i].dependencies);
      if |Seen(tasks[i].dependencies)| != |tasks[i].dependencies| {
        assert tasks[i] in tasks;
        return false;
      }
      if tasks[i].id in tasks[i].dependencies {
        SelfDependence(tasks, i);
        return false;
      }
      i := i + 1;
    }
    UniqueBySize(tasks);
    if |Ids(tasks)| != |tasks| {
      return false;
    }
    i := 0;
    while i < |tasks|
      invariant 0 <= i <= |tasks|
      invariant forall k, d :: 0 <= k < i && d in tasks[k].dependencies ==> d in Ids(tasks)
    {
      if exists d :: d in tasks[i].dependencies && d !in Ids(tasks) {
        assert tasks[i] in tasks;
        return false;
      }
      i := i + 1;
    }
    ok := ValidateAcyclic(tasks);
  }

  lemma SelfDependence(tasks: seq<Task>, i: nat)
    requires i < |tasks| && tasks[i].id in tasks[i].dependencies
    ensures !Acyclic(tasks)
  {
    var x := tasks[i].id;
    assert x in DepsOf(tasks, x) by { assert tasks[i] in tasks; }
    assert Cycle(tasks, [x, x]);
  }
}
