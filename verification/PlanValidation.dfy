/**
 * Building and checking a plan's task graph (core/models.py).
 * The worklist check is loop code over a stack that may hold duplicates; it accepts exactly the acyclic plans.
 */
module PlanValidation {
  import opened Text
  import opened Models

  datatype PlanError =
    | WrongSize
    | DuplicateId
    | BadDependency(id: string)
    | Cyclic
    | SupervisorTask(position: nat)
    | MissingDomains(position: nat, missing: seq<AgentName>)

  datatype Verdict = Accepted | Refused(error: PlanError)

  // ---- Cycles -------------------------------------------------------------------------------

  ghost predicate DependsOn(tasks: seq<Task>, from: string, to: string) {
    exists t <- tasks :: t.id == from && to in t.dependsOn
  }

  ghost predicate Linked(tasks: seq<Task>, path: seq<string>, k: nat)
    requires k + 1 < |path|
  {
    DependsOn(tasks, path[k], path[k + 1])
  }

  ghost predicate Chain(tasks: seq<Task>, path: seq<string>) {
    forall k: nat | k + 1 < |path| :: Linked(tasks, path, k)
  }

  ghost predicate Cycle(tasks: seq<Task>, path: seq<string>) {
    path != [] && Chain(tasks, path) && DependsOn(tasks, path[|path| - 1], path[0])
  }

  ghost predicate Acyclic(tasks: seq<Task>) {
    !exists path :: Cycle(tasks, path)
  }

  ghost function IndexIn(order: seq<string>, x: string): (k: nat)
    requires x in order
    ensures k < |order| && order[k] == x
  {
    var k :| 0 <= k < |order| && order[k] == x; k
  }

  lemma DependencyComesEarlier(tasks: seq<Task>, order: seq<string>, from: string, to: string)
    requires TopologicalOrder(tasks, order) && DependsOn(tasks, from, to)
    ensures from in order && to in order && IndexIn(order, to) < IndexIn(order, from)
  {
    var t :| t in tasks && t.id == from && to in t.dependsOn;
    var k := IndexIn(order, from);
    assert to in order[..k];
    var j :| 0 <= j < k && order[j] == to;
    assert to in order;
    assert IndexIn(order, to) == j;
  }

  lemma {:induction false} ChainGoesDown(tasks: seq<Task>, order: seq<string>, path: seq<string>)
    requires TopologicalOrder(tasks, order) && |path| >= 2 && Chain(tasks, path)
    ensures path[0] in order && path[|path| - 1] in order
    ensures IndexIn(order, path[|path| - 1]) < IndexIn(order, path[0])
    decreases |path|
  {
    assert Linked(tasks, path, 0);
    DependencyComesEarlier(tasks, order, path[0], path[1]);
    if |path| > 2 {
      var rest := path[1..];
      forall k: nat | k + 1 < |rest|
        ensures Linked(tasks, rest, k)
      {
        assert Linked(tasks, path, k + 1);
      }
      ChainGoesDown(tasks, order, rest);
    }
  }

  lemma OrderableIsAcyclic(tasks: seq<Task>)
    requires Orderable(tasks)
    ensures Acyclic(tasks)
  {
    var order :| TopologicalOrder(tasks, order);
    forall path | Cycle(tasks, path)
      ensures false
    {
      var loop := path + [path[0]];
      forall k: nat | k + 1 < |loop|
        ensures Linked(tasks, loop, k)
      {
        if k + 1 < |path| {
          assert Linked(tasks, path, k);
        }
      }
      ChainGoesDown(tasks, order, loop);
    }
  }

  lemma {:induction false} DistinctInSet(path: seq<string>, s: set<string>)
    requires forall i, j :: 0 <= i < j < |path| ==> path[i] != path[j]
    requires forall x <- path :: x in s
    ensures |path| <= |s|
  {
    if path != [] {
      var last := path[|path| - 1];
      var init := path[..|path| - 1];
      assert forall x <- init :: x in s - {last};
      DistinctInSet(init, s - {last});
    }
  }

  predicate Ready(t: Task, visited: set<string>) {
    forall d <- t.dependsOn :: d in visited
  }

  /** The worklist has stopped: whatever is left unvisited still waits for something unvisited. */
  ghost predicate NothingReady(tasks: seq<Task>, visited: set<string>) {
    forall t {:trigger Ready(t, visited)} | t in tasks :: t.id !in visited ==> !Ready(t, visited)
  }

  /** Some unvisited task that `x` waits for, if there is one. */
  ghost function Unmet(tasks: seq<Task>, visited: set<string>, x: string): string {
    if exists y :: y in Ids(tasks) - visited && DependsOn(tasks, x, y)
    then var y :| y in Ids(tasks) - visited && DependsOn(tasks, x, y); y
    else x
  }

  lemma UnmetExists(tasks: seq<Task>, visited: set<string>, x: string)
    requires ClosedDependencies(tasks) && NothingReady(tasks, visited) && x in Ids(tasks) - visited
    ensures Unmet(tasks, visited, x) in Ids(tasks) - visited && DependsOn(tasks, x, Unmet(tasks, visited, x))
  {
    var t :| t in tasks && t.id == x;
    assert !Ready(t, visited);
    var y :| y in t.dependsOn && y !in visited;
    assert y in Ids(tasks) - visited && DependsOn(tasks, x, y);
  }

  /** Following unmet dependencies from one unvisited task to the next must come back to a task already met. */
  lemma {:induction false} KnotHasCycle(
    tasks: seq<Task>, knot: set<string>, next: string -> string, path: seq<string>)
    requires forall x {:trigger next(x)} | x in knot :: next(x) in knot && DependsOn(tasks, x, next(x))
    requires path != [] && Chain(tasks, path)
    requires forall i, j :: 0 <= i < j < |path| ==> path[i] != path[j]
    requires forall x <- path :: x in knot
    ensures !Acyclic(tasks)
    decreases |knot| - |path|
  {
    var last := path[|path| - 1];
    assert last in path;
    var y := next(last);
    if y in path {
      ChainClosesAt(tasks, path, IndexIn(path, y));
    } else {
      var longer := path + [y];
      ChainGrows(tasks, path, y);
      DistinctInSet(longer, knot);
      KnotHasCycle(tasks, knot, next, longer);
    }
  }

  lemma ChainClosesAt(tasks: seq<Task>, path: seq<string>, i: nat)
    requires Chain(tasks, path) && i < |path| && DependsOn(tasks, path[|path| - 1], path[i])
    ensures Cycle(tasks, path[i..])
  {
    var cycle := path[i..];
    forall k: nat | k + 1 < |cycle|
      ensures Linked(tasks, cycle, k)
    {
      assert Linked(tasks, path, i + k);
    }
  }

  lemma ChainGrows(tasks: seq<Task>, path: seq<string>, y: string)
    requires path != [] && Chain(tasks, path) && DependsOn(tasks, path[|path| - 1], y)
    ensures Chain(tasks, path + [y])
  {
    var longer := path + [y];
    forall k: nat | k + 1 < |longer|
      ensures Linked(tasks, longer, k)
    {
      if k + 1 < |path| {
        assert Linked(tasks, path, k);
      }
    }
  }

  // ---- The worklist check -------------------------------------------------------------------

  predicate NamesOnlyOthers(t: Task, ids: set<string>) {
    t.id !in t.dependsOn && forall d <- t.dependsOn :: d in ids
  }

  /** Everything visited was visited after what it depends on. */
  ghost predicate VisitedInOrder(tasks: seq<Task>, visited: set<string>, order: seq<string>) {
    && (forall i, j :: 0 <= i < j < |order| ==> order[i] != order[j])
    && (forall x :: x in visited <==> x in order)
    && visited <= Ids(tasks)
    && (forall t <- tasks, k | 0 <= k < |order| && order[k] == t.id :: forall d <- t.dependsOn :: d in order[..k])
  }

  ghost predicate StackIsReady(tasks: seq<Task>, ready: seq<string>, visited: set<string>) {
    forall x <- ready :: x in Ids(tasks) && forall t <- tasks :: t.id == x ==> Ready(t, visited)
  }

  lemma {:induction false} VisitOne(tasks: seq<Task>, visited: set<string>, order: seq<string>, next: string)
    requires UniqueIds(tasks) && VisitedInOrder(tasks, visited, order)
    requires next in Ids(tasks) && next !in visited
    requires forall t <- tasks :: t.id == next ==> Ready(t, visited)
    ensures VisitedInOrder(tasks, visited + {next}, order + [next])
  {
    var order' := order + [next];
    forall t <- tasks, k | 0 <= k < |order'| && order'[k] == t.id
      ensures forall d <- t.dependsOn :: d in order'[..k]
    {
      if k < |order| {
        assert order'[..k] == order[..k];
      } else {
        assert order'[..k] == order;
      }
    }
  }

  /**
   * The worklist: `ready` is a stack and may hold an id several times; a visited id is dropped when it comes up again.
   */
  method VisitAll(tasks: seq<Task>) returns (visited: set<string>, ghost order: seq<string>)
    requires UniqueIds(tasks)
    ensures VisitedInOrder(tasks, visited, order)
    ensures NothingReady(tasks, visited)
  {
    var ready: seq<string> := [];
    for i := 0 to |tasks|
      invariant StackIsReady(tasks, ready, {})
      invariant forall j :: 0 <= j < i && tasks[j].dependsOn == [] ==> tasks[j].id in ready
    {
      if tasks[i].dependsOn == [] {
        ready := ready + [tasks[i].id];
      }
    }
    NoDependenciesIsReady(tasks);
    visited, order := {}, [];
    while ready != []
      invariant VisitedInOrder(tasks, visited, order)
      invariant StackIsReady(tasks, ready, visited)
      invariant forall t <- tasks :: t.id !in visited && Ready(t, visited) ==> t.id in ready
      decreases Ids(tasks) - visited, |ready|
    {
      var completed := ready[|ready| - 1];
      ghost var before := ready;
      ready := ready[..|ready| - 1];
      assert before == ready + [completed];
      if completed in visited {
        continue;
      }
      VisitOne(tasks, visited, order, completed);
      ghost var visited0 := visited;
      visited, order := visited + {completed}, order + [completed];
      ready := PushReady(tasks, ready, visited0, visited);
    }
  }

  /** One sweep over the plan after a visit: pushes every unvisited task whose dependencies are now all visited. */
  method PushReady(tasks: seq<Task>, stack: seq<string>, ghost visited0: set<string>, visited: set<string>)
    returns (ready: seq<string>)
    requires UniqueIds(tasks) && visited0 <= visited && StackIsReady(tasks, stack, visited0)
    ensures StackIsReady(tasks, ready, visited)
    ensures forall t <- tasks :: t.id !in visited && Ready(t, visited) ==> t.id in ready
  {
    ready := stack;
    for i := 0 to |tasks|
      invariant StackIsReady(tasks, ready, visited)
      invariant forall j :: 0 <= j < i && tasks[j].id !in visited && Ready(tasks[j], visited) ==> tasks[j].id in ready
    {
      if tasks[i].id !in visited && Ready(tasks[i], visited) {
        ready := ready + [tasks[i].id];
      }
    }
  }

  lemma {:induction false} NoDependenciesIsReady(tasks: seq<Task>)
    ensures forall t <- tasks :: Ready(t, {}) ==> t.dependsOn == []
  {
    forall t <- tasks | t.dependsOn != []
      ensures !Ready(t, {})
    {
      assert t.dependsOn[0] in t.dependsOn;
    }
  }

  /** `TaskPlan.validate_dependencies`. */
  method ValidateDependencies(tasks: seq<Task>) returns (r: Verdict)
    ensures r == Refused(DuplicateId) <==> !UniqueIds(tasks)
    ensures r.Refused? && r.error.BadDependency? ==>
              exists i :: 0 <= i < |tasks| && tasks[i].id == r.error.id && !NamesOnlyOthers(tasks[i], Ids(tasks))
                          && forall j :: 0 <= j < i ==> NamesOnlyOthers(tasks[j], Ids(tasks))
    ensures r.Refused? ==> r.error.DuplicateId? || r.error.BadDependency? || r.error.Cyclic?
    ensures r == Refused(Cyclic) <==> UniqueIds(tasks) && ClosedDependencies(tasks) && !Acyclic(tasks)
    ensures r.Accepted? <==> UniqueIds(tasks) && ClosedDependencies(tasks) && Orderable(tasks)
  {
    var ids := Ids(tasks);
    if |ids| != |tasks| {
      DuplicatesShrinkIds(tasks);
      return Refused(DuplicateId);
    }
    DuplicatesShrinkIds(tasks);
    for i := 0 to |tasks|
      invariant forall j :: 0 <= j < i ==> NamesOnlyOthers(tasks[j], ids)
    {
      if !NamesOnlyOthers(tasks[i], ids) {
        assert !ClosedDependencies(tasks);
        return Refused(BadDependency(tasks[i].id));
      }
    }
    assert ClosedDependencies(tasks);
    var visited, order := VisitAll(tasks);
    if visited != ids {
      NothingReadyMeansCycle(tasks, visited);
      return Refused(Cyclic);
    }
    assert TopologicalOrder(tasks, order);
    OrderableIsAcyclic(tasks);
    return Accepted;
  }

  lemma DuplicatesShrinkIds(tasks: seq<Task>)
    ensures |Ids(tasks)| <= |tasks|
    ensures |Ids(tasks)| == |tasks| <==> UniqueIds(tasks)
  {
    if tasks == [] {
      assert Ids(tasks) == {};
    } else {
      var init, last := tasks[..|tasks| - 1], tasks[|tasks| - 1];
      IdsOfLast(tasks);
      DuplicatesShrinkIds(init);
      UniqueIdsOfLast(tasks);
    }
  }

  lemma IdsOfLast(tasks: seq<Task>)
    requires tasks != []
    ensures Ids(tasks) == Ids(tasks[..|tasks| - 1]) + {tasks[|tasks| - 1].id}
  {
    var init, last := tasks[..|tasks| - 1], tasks[|tasks| - 1];
    assert tasks == init + [last];
    IdsUpTo(init, [last]);
    assert Ids([last]) == {last.id} by {
      assert last in [last];
    }
  }

  lemma UniqueIdsOfLast(tasks: seq<Task>)
    requires tasks != []
    ensures UniqueIds(tasks) <==> UniqueIds(tasks[..|tasks| - 1]) && tasks[|tasks| - 1].id !in Ids(tasks[..|tasks| - 1])
  {
    var init, last := tasks[..|tasks| - 1], tasks[|tasks| - 1];
    assert forall i :: 0 <= i < |init| ==> init[i] == tasks[i] && init[i] in init;
    if last.id in Ids(init) {
      var i :| 0 <= i < |init| && init[i].id == last.id;
      assert tasks[i].id == tasks[|tasks| - 1].id;
    }
  }

  lemma StepToUnmet(tasks: seq<Task>, visited: set<string>) returns (next: string -> string)
    requires ClosedDependencies(tasks) && NothingReady(tasks, visited)
    ensures forall x {:trigger next(x)} | x in Ids(tasks) - visited ::
              next(x) in Ids(tasks) - visited && DependsOn(tasks, x, next(x))
  {
    next := x => Unmet(tasks, visited, x);
    forall x | x in Ids(tasks) - visited
      ensures next(x) in Ids(tasks) - visited && DependsOn(tasks, x, next(x))
    {
      UnmetExists(tasks, visited, x);
    }
  }

  lemma NothingReadyMeansCycle(tasks: seq<Task>, visited: set<string>)
    requires ClosedDependencies(tasks) && visited < Ids(tasks) && NothingReady(tasks, visited)
    ensures !Acyclic(tasks) && !Orderable(tasks)
  {
    var next := StepToUnmet(tasks, visited);
    var start :| start in Ids(tasks) && start !in visited;
    KnotHasCycle(tasks, Ids(tasks) - visited, next, [start]);
    if Orderable(tasks) {
      OrderableIsAcyclic(tasks);
    }
  }

  // ---- Plans built from the supervisor's outlines ----------------------------------------------

  /** A task as the supervisor writes it: dependencies are named by domain. */
  datatype Outline = Outline(title: string, domain: AgentName, objective: string, dependsOn: seq<AgentName>)

  datatype PlanResult = Built(tasks: seq<Task>) | Invalid(error: PlanError)

  function TaskId(position: nat): string {
    "task-" + Decimal(position)
  }

  lemma TaskIdInjective(m: nat, n: nat)
    requires TaskId(m) == TaskId(n)
    ensures m == n
  {
    assert TaskId(m)[5..] == Decimal(m) && TaskId(n)[5..] == Decimal(n);
    DecimalInjective(m, n);
  }

  /** The first outline of a domain, which is the one later outlines mean when they name that domain. */
  function FirstOf(outlines: seq<Outline>, domain: AgentName): (k: nat)
    ensures k <= |outlines|
    ensures k < |outlines| ==> outlines[k].domain == domain
    ensures forall j :: 0 <= j < k ==> outlines[j].domain != domain
  {
    if outlines == [] || outlines[0].domain == domain then 0 else 1 + FirstOf(outlines[1..], domain)
  }

  /** `earlier` maps each domain among the first `i` outlines to the id of its first task. */
  ghost predicate FirstTaskOfDomain(outlines: seq<Outline>, i: nat, earlier: map<AgentName, string>) {
    forall d: AgentName ::
      && (d in earlier <==> FirstOf(outlines, d) < i)
      && (d in earlier ==> earlier[d] == TaskId(FirstOf(outlines, d) + 1))
  }

  /** Keeps the first occurrence of each element: `dict.fromkeys`. */
  function Distinct(xs: seq<AgentName>): (r: seq<AgentName>)
    ensures forall x :: x in r <==> x in xs
    ensures forall i, j :: 0 <= i < j < |r| ==> r[i] != r[j]
  {
    if xs == [] then []
    else
      var init, last := Distinct(xs[..|xs| - 1]), xs[|xs| - 1];
      assert xs == xs[..|xs| - 1] + [last];
      if last in init then init else init + [last]
  }

  /** What the task built from outline `i` has to look like. */
  predicate TaskOf(outlines: seq<Outline>, i: nat, t: Task)
    requires i < |outlines|
  {
    && t.id == TaskId(i + 1) && t.title == outlines[i].title && t.domain == outlines[i].domain
    && t.objective == outlines[i].objective && t.status == Pending && t.handedOffFrom == [] && t.supplements == []
    && var wanted := Distinct(outlines[i].dependsOn);
    && |t.dependsOn| == |wanted|
    && forall n :: 0 <= n < |wanted| ==> t.dependsOn[n] == TaskId(FirstOf(outlines, wanted[n]) + 1)
  }

  predicate NamesEarlierDomains(outlines: seq<Outline>, i: nat)
    requires i < |outlines|
  {
    forall d <- outlines[i].dependsOn :: FirstOf(outlines, d) < i
  }

  predicate Usable(outlines: seq<Outline>, i: nat)
    requires i < |outlines|
  {
    NamesEarlierDomains(outlines, i) && outlines[i].domain != Supervisor
  }

  ghost predicate BuiltSoFar(outlines: seq<Outline>, tasks: seq<Task>) {
    && |tasks| <= |outlines|
    && forall i :: 0 <= i < |tasks| ==> Usable(outlines, i) && TaskOf(outlines, i, tasks[i])
  }

  /** The error names the first outline that cannot be built, and exactly the domains it misses. */
  ghost predicate FirstMissing(outlines: seq<Outline>, position: nat, missing: seq<AgentName>) {
    && 1 <= position <= |outlines|
    && (forall j :: 0 <= j < position - 1 ==> Usable(outlines, j))
    && missing != [] && missing == UnknownBefore(outlines, outlines[position - 1].dependsOn, position - 1)
  }

  /** Those of `domains` that no outline before position `i` has, as they are written. */
  function UnknownBefore(outlines: seq<Outline>, domains: seq<AgentName>, i: nat): seq<AgentName> {
    if domains == [] then []
    else
      var last := domains[|domains| - 1];
      UnknownBefore(outlines, domains[..|domains| - 1], i) + if FirstOf(outlines, last) < i then [] else [last]
  }

  /** Duplicates are dropped where they are repeated: what is named first stays first. */
  lemma {:induction false} DistinctKeepsOrder(xs: seq<AgentName>, i: nat, j: nat) returns (m: nat, n: nat)
    requires i < j < |Distinct(xs)|
    ensures m < n < |xs| && xs[m] == Distinct(xs)[i] && xs[n] == Distinct(xs)[j]
    ensures xs[m] !in xs[..m] && xs[n] !in xs[..n]
  {
    var init := xs[..|xs| - 1];
    assert xs == init + [xs[|xs| - 1]];
    if j < |Distinct(init)| {
      m, n := DistinctKeepsOrder(init, i, j);
      assert xs[..m] == init[..m] && xs[..n] == init[..n];
    } else {
      n := |xs| - 1;
      m := DistinctIsThere(init, i);
      assert xs[..m] == init[..m];
    }
  }

  lemma {:induction false} DistinctIsThere(xs: seq<AgentName>, i: nat) returns (m: nat)
    requires i < |Distinct(xs)|
    ensures m < |xs| && xs[m] == Distinct(xs)[i] && xs[m] !in xs[..m]
  {
    var init := xs[..|xs| - 1];
    assert xs == init + [xs[|xs| - 1]];
    if i < |Distinct(init)| {
      m := DistinctIsThere(init, i);
      assert xs[..m] == init[..m];
    } else {
      m := |xs| - 1;
    }
  }

  /** Which error it has to be: that of the first outline that cannot be built, else the size of the plan. */
  ghost predicate IsWhatIsWrong(outlines: seq<Outline>, error: PlanError) {
    match error
    case MissingDomains(position, missing) => FirstMissing(outlines, position, missing)
    case SupervisorTask(position) =>
      && 1 <= position <= |outlines| && (forall j :: 0 <= j < position - 1 ==> Usable(outlines, j))
      && outlines[position - 1].domain == Supervisor && NamesEarlierDomains(outlines, position - 1)
    case WrongSize =>
      !(1 <= |outlines| <= 20) && forall j :: 0 <= j < |outlines| ==> Usable(outlines, j)
    case _ => false
  }

  /** `plan_from_outlines`. Outlines are checked in order; the first one that cannot be built decides the error. */
  method PlanFromOutlines(outlines: seq<Outline>) returns (r: PlanResult)
    ensures r.Built? <==> 1 <= |outlines| <= 20 && forall i :: 0 <= i < |outlines| ==> Usable(outlines, i)
    ensures r.Built? ==> |r.tasks| == |outlines| && BuiltSoFar(outlines, r.tasks)
    ensures r.Built? ==> UniqueIds(r.tasks) && ClosedDependencies(r.tasks) && Orderable(r.tasks)
    ensures r.Invalid? ==> IsWhatIsWrong(outlines, r.error)
  {
    var tasks: seq<Task> := [];
    var earlier: map<AgentName, string> := map[];
    for i := 0 to |outlines|
      invariant |tasks| == i && BuiltSoFar(outlines, tasks)
      invariant FirstTaskOfDomain(outlines, i, earlier)
    {
      var built := TaskFromOutline(outlines, i, earlier);
      if built.Invalid? {
        return built;
      }
      tasks := tasks + built.tasks;
      FirstTaskOfNextDomain(outlines, i, earlier);
      earlier := if outlines[i].domain in earlier then earlier else earlier[outlines[i].domain := TaskId(i + 1)];
    }
    if |tasks| == 0 || |tasks| > 20 {
      return Invalid(WrongSize);
    }
    BuiltPlanIsValid(outlines, tasks);
    return Built(tasks);
  }

  /** The body of that loop: one outline becomes one task, or ends the construction. */
  method TaskFromOutline(outlines: seq<Outline>, i: nat, earlier: map<AgentName, string>) returns (r: PlanResult)
    requires i < |outlines| && FirstTaskOfDomain(outlines, i, earlier)
    requires forall j :: 0 <= j < i ==> Usable(outlines, j)
    ensures r.Built? <==> Usable(outlines, i)
    ensures r.Built? ==> |r.tasks| == 1 && TaskOf(outlines, i, r.tasks[0])
    ensures r.Invalid? ==> IsWhatIsWrong(outlines, r.error) && !r.error.WrongSize?
  {
    var outline := outlines[i];
    var missing := Missing(outline.dependsOn, earlier);
    MissingIsUnknown(outlines, i, earlier, outline.dependsOn);
    if missing != [] {
      assert missing[0] in missing && !NamesEarlierDomains(outlines, i);
      return Invalid(MissingDomains(i + 1, missing));
    }
    if outline.domain == Supervisor {
      return Invalid(SupervisorTask(i + 1));
    }
    assert forall d <- outline.dependsOn :: d in earlier;
    var task := Task(TaskId(i + 1), outline.title, outline.domain, outline.objective,
                     Resolve(Distinct(outline.dependsOn), earlier), Pending, [], []);
    ResolvedTask(outlines, i, earlier, task);
    return Built([task]);
  }

  lemma FirstTaskOfNextDomain(outlines: seq<Outline>, i: nat, earlier: map<AgentName, string>)
    requires i < |outlines| && FirstTaskOfDomain(outlines, i, earlier)
    ensures var d := outlines[i].domain;
            FirstTaskOfDomain(outlines, i + 1, if d in earlier then earlier else earlier[d := TaskId(i + 1)])
  {}

  lemma {:induction false} ResolvedTask(outlines: seq<Outline>, i: nat, earlier: map<AgentName, string>, t: Task)
    requires i < |outlines| && FirstTaskOfDomain(outlines, i, earlier)
    requires forall d <- outlines[i].dependsOn :: d in earlier
    requires t == Task(TaskId(i + 1), outlines[i].title, outlines[i].domain, outlines[i].objective,
                       Resolve(Distinct(outlines[i].dependsOn), earlier), Pending, [], [])
    ensures TaskOf(outlines, i, t)
  {
    var wanted := Distinct(outlines[i].dependsOn);
    assert forall n :: 0 <= n < |wanted| ==> wanted[n] in wanted;
  }

  function Missing(domains: seq<AgentName>, earlier: map<AgentName, string>): (r: seq<AgentName>)
    ensures forall d :: d in r <==> d in domains && d !in earlier
  {
    if domains == [] then []
    else (if domains[0] !in earlier then [domains[0]] else []) + Missing(domains[1..], earlier)
  }

  lemma {:induction false} MissingIsUnknown(outlines: seq<Outline>, i: nat, earlier: map<AgentName, string>,
                                            domains: seq<AgentName>)
    requires FirstTaskOfDomain(outlines, i, earlier)
    ensures Missing(domains, earlier) == UnknownBefore(outlines, domains, i)
  {
    if domains != [] {
      var init, last := domains[..|domains| - 1], domains[|domains| - 1];
      MissingIsUnknown(outlines, i, earlier, init);
      MissingAppend(init, [last], earlier);
      assert domains == init + [last];
      assert Missing([last], earlier) == if last in earlier then [] else [last];
    }
  }

  lemma {:induction false} MissingAppend(a: seq<AgentName>, b: seq<AgentName>, earlier: map<AgentName, string>)
    ensures Missing(a + b, earlier) == Missing(a, earlier) + Missing(b, earlier)
  {
    if a == [] {
      assert a + b == b;
    } else {
      assert (a + b)[1..] == a[1..] + b;
      MissingAppend(a[1..], b, earlier);
    }
  }

  function Resolve(domains: seq<AgentName>, earlier: map<AgentName, string>): seq<string>
    requires forall d <- domains :: d in earlier
  {
    seq(|domains|, i requires 0 <= i < |domains| => earlier[domains[i]])
  }

  lemma PointsBackwards(outlines: seq<Outline>, tasks: seq<Task>, i: nat, d: string) returns (k: nat)
    requires |tasks| == |outlines| && i < |tasks| && d in tasks[i].dependsOn
    requires forall j :: 0 <= j < |outlines| ==> TaskOf(outlines, j, tasks[j]) && NamesEarlierDomains(outlines, j)
    ensures k < i && tasks[k].id == d
  {
    assert TaskOf(outlines, i, tasks[i]) && NamesEarlierDomains(outlines, i);
    var wanted := Distinct(outlines[i].dependsOn);
    var n :| 0 <= n < |wanted| && tasks[i].dependsOn[n] == d;
    k := FirstOf(outlines, wanted[n]);
    assert wanted[n] in outlines[i].dependsOn;
    assert TaskOf(outlines, k, tasks[k]);
  }

  lemma BuiltIdsAreUnique(outlines: seq<Outline>, tasks: seq<Task>)
    requires |tasks| == |outlines| && forall i :: 0 <= i < |outlines| ==> TaskOf(outlines, i, tasks[i])
    ensures UniqueIds(tasks)
  {
    forall i, j | 0 <= i < j < |tasks|
      ensures tasks[i].id != tasks[j].id
    {
      assert TaskOf(outlines, i, tasks[i]) && TaskOf(outlines, j, tasks[j]);
      if TaskId(i + 1) == TaskId(j + 1) {
        TaskIdInjective(i + 1, j + 1);
      }
    }
  }

  function IdList(tasks: seq<Task>): (r: seq<string>)
    ensures |r| == |tasks| && forall i :: 0 <= i < |tasks| ==> r[i] == tasks[i].id
  {
    seq(|tasks|, i requires 0 <= i < |tasks| => tasks[i].id)
  }

  /** Tasks only point backwards, so listing them as they come is already an order. */
  lemma BuiltPlanIsValid(outlines: seq<Outline>, tasks: seq<Task>)
    requires |tasks| == |outlines|
    requires forall i :: 0 <= i < |outlines| ==> TaskOf(outlines, i, tasks[i]) && NamesEarlierDomains(outlines, i)
    ensures UniqueIds(tasks) && ClosedDependencies(tasks) && Orderable(tasks)
  {
    BuiltIdsAreUnique(outlines, tasks);
    forall i, d | 0 <= i < |tasks| && d in tasks[i].dependsOn
      ensures d in IdList(tasks)[..i]
    {
      var k := PointsBackwards(outlines, tasks, i, d);
      assert IdList(tasks)[..i][k] == d;
    }
    BackwardsIsOrdered(tasks);
  }

  lemma {:induction false} BackwardsIsOrdered(tasks: seq<Task>)
    requires UniqueIds(tasks)
    requires forall i :: 0 <= i < |tasks| ==> forall d <- tasks[i].dependsOn :: d in IdList(tasks)[..i]
    ensures ClosedDependencies(tasks) && Orderable(tasks)
  {
    var order := IdList(tasks);
    forall t, d | t in tasks && d in t.dependsOn
      ensures d != t.id && d in Ids(tasks)
    {
      var i :| 0 <= i < |tasks| && tasks[i] == t;
      var k :| 0 <= k < i && order[k] == d;
      assert tasks[k] in tasks && tasks[k].id != tasks[i].id;
    }
    forall t, k | t in tasks && 0 <= k < |order| && order[k] == t.id
      ensures forall d <- t.dependsOn :: d in order[..k]
    {
      assert tasks[k] == t;
    }
    forall t | t in tasks
      ensures t.id in order
    {
      var i :| 0 <= i < |tasks| && tasks[i] == t;
      assert order[i] == t.id;
    }
    assert TopologicalOrder(tasks, order);
  }
}
