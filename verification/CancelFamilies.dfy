/** Forests built by Start: one that a Cancel completes altogether, though the
    callback of each child completes the parent, and one in which the callback of a
    child completes its brother, and the brother's child is missed. */
module CancelFamilies {
  import opened LifecycleWord
  import opened ErrorCodes
  import opened CancelTree
  import opened CancelEffects
  import opened CancelReach
  import opened CancelPlain

  const STARTED_NEW := NEW.(view := View(Started, false, false))

  lemma StartPlain(f: Forest, x: AsyncOperation)
    requires x in f && (x.parent != null ==> x.parent in f && x.parent != x) && x.onStart == [] && f[x] == NEW
    ensures AfterStart(f, x) ==
              var g: Forest := f[x := STARTED_NEW];
              if x.parent == null then g else g[x.parent := Attached(f[x.parent], x)]
  {
    HookUnfolds(AfterStart(f, x), []);
  }

  // ---------------------------------------------------------------- a missed child

  /** c is as it was and has been discarded by the Cleanup of z. */
  ghost predicate Missed(f: Forest, g: Forest, z: AsyncOperation, c: AsyncOperation) {
    c in f && c in g && z in g && g[c].view == f[c].view && g[c].expired == f[c].expired && !Settled(g[c]) && c in g[z].dropped
  }

  /** The cancel of h begins with y, which has no children and nothing but a callback. */
  ghost predicate BeginsWith(f: Forest, h: AsyncOperation, y: AsyncOperation) {
    && h in f && !f[h].view.cancelled && y != h && Live(f, f[h].children) != [] && Live(f, f[h].children)[0] == y
    && Caller(f, y)
  }

  ghost predicate Caller(f: Forest, y: AsyncOperation) {
    && y in f && f[y].view == View(Started, false, false) && f[y].children == [] && f[y].callback && !y.skip && y.parent != y
    && y.onCancel == [] && y.onCompleted == []
  }

  /** z may be completed without a hook of its own, and c hangs from nothing but z. */
  ghost predicate Loses(f: Forest, z: AsyncOperation, c: AsyncOperation) {
    && z in f && f[z].view.life == Started && z.parent != z && z.onCompleted == [] && z.onDone == []
    && c in f && c in f[z].children && !f[c].expired && !Settled(f[c]) && Unnamed(f, z, c)
  }

  lemma MissedWhenDiscarded(f: Forest, h: AsyncOperation, force: bool, y: AsyncOperation, z: AsyncOperation, c: AsyncOperation)
    requires Ok(f) && BeginsWith(f, h, y) && c != h && Loses(f, z, c)
    requires var i := AfterCancel(f[h := Marked(f[h])], y, false); z in i && c in i[z].dropped
    ensures Missed(f, AfterCancel(f, h, force), z, c)
  {
    var m: Forest := f[h := Marked(f[h])];
    var g := AfterCancel(f, h, force);
    hide AfterCancel, AfterCancelAll, AfterEnd, Later, Unnamed, Ok, Live, Marked, Caller;
    CancelUnfolds(f, h, force);
    CancelAllUnfolds(m, Live(f, f[h].children));
    var i := AfterCancel(m, y, false);
    var j := AfterCancelAll(i, Live(f, f[h].children)[1..]);
    LaterAt(i, j, z);
    LaterKeys(i, j);
    LaterKeys(m, i);
    LaterAt(j, AfterEnd(j, h, force), z);
    ReachedUnlessDiscarded(f, h, force, z, c);
    LaterAt(f, g, c);
  }

  /** The first child of h has a callback that completes another operation z, whose own
      hooks do nothing. Then the cancel of h misses every live child of z that
      nobody else could reach. */
  lemma MissedByCallback(f: Forest, h: AsyncOperation, force: bool, y: AsyncOperation, z: AsyncOperation, error: Value, c: AsyncOperation)
    requires Ok(f) && BeginsWith(f, h, y) && y.onDone == [CompleteIt(z, error)] && z != h && z != y && c != h && Loses(f, z, c)
    ensures Missed(f, AfterCancel(f, h, force), z, c)
  {
    var m: Forest := f[h := Marked(f[h])];
    hide AfterCancel, Later, Unnamed, Ok, Live;
    CallbackDiscards(m, y, z, error);
    MissedWhenDiscarded(f, h, force, y, z, c);
  }

  /** Every hook completes its own operation or one above it; what it cancels is free. */
  ghost predicate CompletesUpward(actions: seq<Action>, o: AsyncOperation) {
    forall i :: 0 <= i < |actions| && actions[i].CompleteIt? ==> actions[i].target == o || actions[i].target in o.above
  }

  /** The callback of y only cancels a, and the callback of a completes z, which may be
      the parent of a: that is as bad. */
  lemma MissedByCancel(f: Forest, h: AsyncOperation, force: bool, y: AsyncOperation, a: AsyncOperation, z: AsyncOperation,
                       error: Value, c: AsyncOperation)
    requires Ok(f) && BeginsWith(f, h, y) && y.onDone == [CancelIt(a, false)]
    requires a != h && a != y && Caller(f, a) && a.onDone == [CompleteIt(z, error)]
    requires z != h && z != y && z != a && c != h && Loses(f, z, c)
    ensures Missed(f, AfterCancel(f, h, force), z, c)
  {
    var m: Forest := f[h := Marked(f[h])];
    assert Caller(m, y) && Caller(m, a) && m[z] == f[z];
    hide AfterCancel, Later, Unnamed, Ok, Live, Caller, Marked;
    CancelPassesOn(m, y, a, z, error, c);
    MissedWhenDiscarded(f, h, force, y, z, c);
  }

  lemma CancelPassesOn(f: Forest, y: AsyncOperation, a: AsyncOperation, z: AsyncOperation, error: Value, c: AsyncOperation)
    requires Caller(f, y) && y.onDone == [CancelIt(a, false)] && a != y && Caller(f, a) && a.onDone == [CompleteIt(z, error)]
    requires z != y && z != a && z in f && f[z].view.life == Started && z.parent != z && z.onCompleted == [] && z.onDone == []
    requires c in f[z].children
    ensures z in AfterCancel(f, y, false) && c in AfterCancel(f, y, false)[z].dropped
  {
    var k: Forest := f[y := f[y].(view := View(Completed, false, true), error := OPERATION_CANCELED, fired := f[y].fired + 1)];
    hide AfterCancel, AfterHook, AfterCleanup, Later, Dropped;
    ComesToCallback(f, y);
    HookOfOneCancel(k, a);
    CallbackDiscards(k, a, z, error);
    CleansPlainly(AfterCancel(k, a, false), y);
  }

  lemma HookOfOneCancel(f: Forest, a: AsyncOperation)
    ensures AfterHook(f, [CancelIt(a, false)]) == AfterCancel(f, a, false)
  {
    var actions := [CancelIt(a, false)];
    assert AfterAction(f, actions[0]) == AfterCancel(f, a, false) && actions[1..] == [];
    hide *;
    HookUnfolds(f, actions);
    HookUnfolds(AfterCancel(f, a, false), []);
  }

  // ---------------------------------------------------------------- a brother's child

  /** root is the parent of first and second, second of child, and the callback of
      first completes second. */
  ghost predicate Relations(root: AsyncOperation, first: AsyncOperation, second: AsyncOperation, child: AsyncOperation) {
    && root != first && root != second && root != child && first != second && first != child && second != child
    && Bare(root) && Bare(second) && Bare(child)
    && first.onStart == [] && first.onCancel == [] && first.onCompleted == [] && first.onDone == [CompleteIt(second, SUCCESS)] && !first.skip
    && root.parent == null && first.parent == root && second.parent == root && child.parent == second
  }

  ghost predicate Brothers(f: Forest, root: AsyncOperation, first: AsyncOperation, second: AsyncOperation, child: AsyncOperation) {
    && f.Keys == {root, first, second, child} && Relations(root, first, second, child)
    && f[root] == STARTED_NEW.(children := [first, second]) && f[first] == STARTED_NEW
    && f[second] == STARTED_NEW.(children := [child]) && f[child] == STARTED_NEW
  }

  lemma BrothersAreOk(f: Forest, root: AsyncOperation, first: AsyncOperation, second: AsyncOperation, child: AsyncOperation)
    requires Brothers(f, root, first, second, child)
    ensures Ok(f) && Tidy(f) && Quiescent(f)
  {
  }

  lemma ChildIsUnnamed(f: Forest, root: AsyncOperation, first: AsyncOperation, second: AsyncOperation, child: AsyncOperation)
    requires Brothers(f, root, first, second, child)
    ensures Unnamed(f, second, child)
  {
  }

  /** The recursive cancel of root does not reach the child of second. */
  lemma BrothersMissAChild(f: Forest, root: AsyncOperation, first: AsyncOperation, second: AsyncOperation, child: AsyncOperation)
    requires Brothers(f, root, first, second, child)
    ensures Missed(f, AfterCancel(f, root, false), second, child) && f[child].view == View(Started, false, false) && !f[child].expired
  {
    BrothersAreOk(f, root, first, second, child);
    ChildIsUnnamed(f, root, first, second, child);
    assert Live(f, [first, second])[0] == first;
    hide Ok, Unnamed, AfterCancel, Live;
    MissedByCallback(f, root, false, first, second, SUCCESS, child);
  }

  /** The child was alive and in the list of its parent when the cancel began, and is
      not reached: the Cleanup of its parent discards it. */
  method MissedGrandchild() returns (root: AsyncOperation, first: AsyncOperation, second: AsyncOperation, child: AsyncOperation)
    ensures root.view.cancelled && child.parent == second && second.parent == root
    ensures child.view == View(Started, false, false) && !child.expired && child in second.dropped
  {
    root := new AsyncOperation(null, false, [], [], [], []);
    second := new AsyncOperation(root, false, [], [], [], []);
    first := new AsyncOperation(root, false, [], [], [], [CompleteIt(second, SUCCESS)]);
    child := new AsyncOperation(second, false, [], [], [], []);
    ghost var all := {root, first, second, child};
    StartAll(root, first, second, child, all);
    ghost var f := Take(all);
    BrothersAreOk(f, root, first, second, child);
    BrothersMissAChild(f, root, first, second, child);
    hide *;
    Unmarked(f, root, first, second, child);
    CancelAndMiss(root, second, child, all);
  }

  method CancelAndMiss(root: AsyncOperation, second: AsyncOperation, child: AsyncOperation, ghost all: set<AsyncOperation>)
    requires Ok(Take(all)) && Tidy(Take(all)) && Quiescent(Take(all)) && root in all && second in all && child in all
    requires !Take(all)[root].view.cancelled && Missed(Take(all), AfterCancel(Take(all), root, false), second, child)
    requires Take(all)[child].view == View(Started, false, false) && !Take(all)[child].expired
    modifies all
    ensures root.view.cancelled && child.view == View(Started, false, false) && !child.expired && child in second.dropped
  {
    ghost var f := Take(all);
    hide *;
    SeenWhole(all, root);
    CancelFromOutside(root, false, all, {}, map[]);
    MissedIs(f, Take(all), second, child);
    SeenWhole(all, child);
    SeenWhole(all, second);
  }

  lemma MissedIs(f: Forest, g: Forest, z: AsyncOperation, c: AsyncOperation)
    requires Missed(f, g, z, c)
    ensures c in f && c in g && z in g && g[c].view == f[c].view && g[c].expired == f[c].expired && c in g[z].dropped
  {
  }

  lemma SeenWhole(all: set<AsyncOperation>, o: AsyncOperation)
    ensures o in all ==> o in Take(all) && Take(all)[o] == o.Shoot()
    ensures o.Shoot().view == o.view && o.Shoot().expired == o.expired && o.Shoot().dropped == o.dropped
  {
  }

  lemma Unmarked(f: Forest, root: AsyncOperation, first: AsyncOperation, second: AsyncOperation, child: AsyncOperation)
    requires Brothers(f, root, first, second, child)
    ensures root in f && child in f && !f[root].view.cancelled
  {
  }

  method StartAll(root: AsyncOperation, first: AsyncOperation, second: AsyncOperation, child: AsyncOperation, ghost all: set<AsyncOperation>)
    requires Relations(root, first, second, child) && all == {root, first, second, child}
    requires root.Shoot() == NEW && first.Shoot() == NEW && second.Shoot() == NEW && child.Shoot() == NEW
    modifies all
    ensures Brothers(Take(all), root, first, second, child)
  {
    NewIsOk(root, first, second, child, Take(all));
    hide Ok;
    StartElder(root, first, second, child, all);
    StartYounger(root, first, second, child, all);
    ghost var f := Take(all);
    assert f[root] == root.Shoot() && f[first] == first.Shoot() && f[second] == second.Shoot() && f[child] == child.Shoot();
  }

  method StartElder(root: AsyncOperation, first: AsyncOperation, second: AsyncOperation, child: AsyncOperation, ghost all: set<AsyncOperation>)
    requires Relations(root, first, second, child) && all == {root, first, second, child} && Ok(Take(all))
    requires root.Shoot() == NEW && first.Shoot() == NEW && second.Shoot() == NEW && child.Shoot() == NEW
    modifies all
    ensures Ok(Take(all)) && second.Shoot() == NEW && child.Shoot() == NEW
    ensures root.Shoot() == STARTED_NEW.(children := [first]) && first.Shoot() == STARTED_NEW
  {
    hide Ok;
    StartOne(root, all);
    StartOne(first, all);
  }

  method StartYounger(root: AsyncOperation, first: AsyncOperation, second: AsyncOperation, child: AsyncOperation, ghost all: set<AsyncOperation>)
    requires Relations(root, first, second, child) && all == {root, first, second, child} && Ok(Take(all))
    requires root.Shoot() == STARTED_NEW.(children := [first]) && first.Shoot() == STARTED_NEW && second.Shoot() == NEW && child.Shoot() == NEW
    modifies all
    ensures root.Shoot() == STARTED_NEW.(children := [first, second]) && first.Shoot() == STARTED_NEW
    ensures second.Shoot() == STARTED_NEW.(children := [child]) && child.Shoot() == STARTED_NEW
  {
    hide Ok;
    StartOne(second, all);
    StartOne(child, all);
  }

  lemma NewIsOk(root: AsyncOperation, first: AsyncOperation, second: AsyncOperation, child: AsyncOperation, f: Forest)
    requires Relations(root, first, second, child) && f.Keys == {root, first, second, child} && forall o :: o in f ==> f[o] == NEW
    ensures Ok(f)
  {
  }

  /** Start without an OnStart hook. */
  method StartOne(x: AsyncOperation, ghost all: set<AsyncOperation>)
    requires Ok(Take(all)) && x in all && x.Shoot() == NEW && x.onStart == [] && x.parent != x
    requires x.parent != null ==> x.parent in all && Stage(x.parent.view.life) < 2 && !x.parent.view.cancelled
    modifies all
    ensures Ok(Take(all)) && x.Shoot() == STARTED_NEW
    ensures x.parent != null ==> x.parent.Shoot() == Attached(old(x.parent.Shoot()), x)
    ensures forall o :: o in all && o != x && o != x.parent ==> o.Shoot() == old(o.Shoot())
  {
    ghost var f := Take(all);
    StartPlain(f, x);
    hide Ok, AfterStart;
    x.Start(all);
    assert forall o :: o in all ==> Take(all)[o] == o.Shoot();
  }

  // ---------------------------------------------------------------- a nephew

  /** root is the parent of first and second, second of caller and child. The callback of
      caller completes its own parent; that of first cancels its nephew. */
  ghost predicate Kin(root: AsyncOperation, first: AsyncOperation, second: AsyncOperation, caller: AsyncOperation, child: AsyncOperation) {
    && root !in {first, second, caller, child} && first !in {second, caller, child} && second !in {caller, child} && caller != child
    && Bare(root) && Bare(second) && Bare(child)
    && first.onStart == [] && first.onCancel == [] && first.onCompleted == [] && first.onDone == [CancelIt(caller, false)] && !first.skip
    && caller.onStart == [] && caller.onCancel == [] && caller.onCompleted == [] && caller.onDone == [CompleteIt(second, SUCCESS)]
    && !caller.skip
    && root.parent == null && first.parent == root && second.parent == root && caller.parent == second && child.parent == second
  }

  ghost predicate KinStarted(f: Forest, root: AsyncOperation, first: AsyncOperation, second: AsyncOperation, caller: AsyncOperation,
                             child: AsyncOperation) {
    && f.Keys == {root, first, second, caller, child} && Kin(root, first, second, caller, child)
    && f[root] == STARTED_NEW.(children := [first, second]) && f[first] == STARTED_NEW
    && f[second] == STARTED_NEW.(children := [caller, child]) && f[caller] == STARTED_NEW && f[child] == STARTED_NEW
  }

  lemma KinAreOk(f: Forest, root: AsyncOperation, first: AsyncOperation, second: AsyncOperation, caller: AsyncOperation, child: AsyncOperation)
    requires KinStarted(f, root, first, second, caller, child)
    ensures Ok(f) && Tidy(f) && Quiescent(f) && root in f && !f[root].view.cancelled
  {
    KinAreLinked(f, root, first, second, caller, child);
    hide Ok;
  }

  lemma KinAreLinked(f: Forest, root: AsyncOperation, first: AsyncOperation, second: AsyncOperation, caller: AsyncOperation, child: AsyncOperation)
    requires KinStarted(f, root, first, second, caller, child)
    ensures Ok(f)
  {
  }

  lemma NephewIsLost(f: Forest, root: AsyncOperation, first: AsyncOperation, second: AsyncOperation, caller: AsyncOperation, child: AsyncOperation)
    requires KinStarted(f, root, first, second, caller, child)
    ensures Loses(f, second, child) && BeginsWith(f, root, first) && Caller(f, caller)
  {
    assert Live(f, [first, second])[0] == first;
  }

  lemma KinMissAChild(f: Forest, root: AsyncOperation, first: AsyncOperation, second: AsyncOperation, caller: AsyncOperation, child: AsyncOperation)
    requires KinStarted(f, root, first, second, caller, child)
    ensures Missed(f, AfterCancel(f, root, false), second, child) && f[child].view == View(Started, false, false) && !f[child].expired
  {
    KinAreOk(f, root, first, second, caller, child);
    NephewIsLost(f, root, first, second, caller, child);
    hide Ok, Loses, BeginsWith, Caller, AfterCancel, Missed;
    MissedByCancel(f, root, false, first, caller, second, SUCCESS, child);
  }

  /** Every completion goes upward, and still a child is missed: the callback of first
      cancels caller, whose callback completes second before second is swept. */
  method MissedNephew() returns (root: AsyncOperation, first: AsyncOperation, second: AsyncOperation, caller: AsyncOperation, child: AsyncOperation)
    ensures Kin(root, first, second, caller, child) && caller.above == {root, second}
    ensures CompletesUpward(first.onDone, first) && CompletesUpward(caller.onDone, caller)
    ensures root.view.cancelled && child.view == View(Started, false, false) && !child.expired && child in second.dropped
  {
    root, first, second, caller, child := NewKin();
    ghost var all := {root, first, second, caller, child};
    CancelKin(root, first, second, caller, child, all);
  }

  method NewKin() returns (root: AsyncOperation, first: AsyncOperation, second: AsyncOperation, caller: AsyncOperation, child: AsyncOperation)
    ensures Kin(root, first, second, caller, child) && caller.above == {root, second}
    ensures fresh({root, first, second, caller, child}) && forall o :: o in {root, first, second, caller, child} ==> o.Shoot() == NEW
  {
    root := new AsyncOperation(null, false, [], [], [], []);
    second := new AsyncOperation(root, false, [], [], [], []);
    caller := new AsyncOperation(second, false, [], [], [], [CompleteIt(second, SUCCESS)]);
    first := new AsyncOperation(root, false, [], [], [], [CancelIt(caller, false)]);
    child := new AsyncOperation(second, false, [], [], [], []);
  }

  method CancelKin(root: AsyncOperation, first: AsyncOperation, second: AsyncOperation, caller: AsyncOperation, child: AsyncOperation,
                   ghost all: set<AsyncOperation>)
    requires Kin(root, first, second, caller, child) && all == {root, first, second, caller, child}
    requires forall o :: o in all ==> o.Shoot() == NEW
    modifies all
    ensures root.view.cancelled && child.view == View(Started, false, false) && !child.expired && child in second.dropped
  {
    hide *;
    StartKin(root, first, second, caller, child, all);
    KinAreOk(Take(all), root, first, second, caller, child);
    KinMissAChild(Take(all), root, first, second, caller, child);
    CancelAndMiss(root, second, child, all);
  }

  method StartKin(root: AsyncOperation, first: AsyncOperation, second: AsyncOperation, caller: AsyncOperation, child: AsyncOperation,
                  ghost all: set<AsyncOperation>)
    requires Kin(root, first, second, caller, child) && all == {root, first, second, caller, child}
    requires forall o :: o in all ==> o.Shoot() == NEW
    modifies all
    ensures KinStarted(Take(all), root, first, second, caller, child)
  {
    NewKinAreOk(root, first, second, caller, child, Take(all));
    StartOlderKin(root, first, second, caller, child, all);
    StartYoungerKin(root, first, second, caller, child, all);
    ghost var f := Take(all);
    assert f[root] == root.Shoot() && f[first] == first.Shoot() && f[second] == second.Shoot();
    assert f[caller] == caller.Shoot() && f[child] == child.Shoot();
  }

  method StartOlderKin(root: AsyncOperation, first: AsyncOperation, second: AsyncOperation, caller: AsyncOperation, child: AsyncOperation,
                       ghost all: set<AsyncOperation>)
    requires Kin(root, first, second, caller, child) && all == {root, first, second, caller, child} && Ok(Take(all))
    requires forall o :: o in all ==> o.Shoot() == NEW
    modifies all
    ensures Ok(Take(all)) && caller.Shoot() == NEW && child.Shoot() == NEW
    ensures root.Shoot() == STARTED_NEW.(children := [first, second]) && first.Shoot() == STARTED_NEW && second.Shoot() == STARTED_NEW
  {
    hide Ok, Take;
    StartOne(root, all);
    StartOne(first, all);
    StartOne(second, all);
  }

  method StartYoungerKin(root: AsyncOperation, first: AsyncOperation, second: AsyncOperation, caller: AsyncOperation, child: AsyncOperation,
                         ghost all: set<AsyncOperation>)
    requires Kin(root, first, second, caller, child) && all == {root, first, second, caller, child} && Ok(Take(all))
    requires caller.Shoot() == NEW && child.Shoot() == NEW && second.Shoot() == STARTED_NEW
    modifies all
    ensures root.Shoot() == old(root.Shoot()) && first.Shoot() == old(first.Shoot())
    ensures second.Shoot() == STARTED_NEW.(children := [caller, child]) && caller.Shoot() == STARTED_NEW && child.Shoot() == STARTED_NEW
  {
    hide Ok, Take;
    StartOne(caller, all);
    StartOne(child, all);
  }

  lemma NewKinAreOk(root: AsyncOperation, first: AsyncOperation, second: AsyncOperation, caller: AsyncOperation, child: AsyncOperation, f: Forest)
    requires Kin(root, first, second, caller, child) && f.Keys == {root, first, second, caller, child} && forall o :: o in f ==> f[o] == NEW
    ensures Ok(f)
  {
  }

  // ---------------------------------------------------------------- children that complete their parent

  /** The usual callback of a child: hand the result to the parent. */
  predicate Reports(k: AsyncOperation, root: AsyncOperation, error: Value) {
    k.onStart == [] && k.onCancel == [] && k.onCompleted == [] && k.onDone == [CompleteIt(root, error)] && !k.skip
  }

  ghost predicate Family(f: Forest, root: AsyncOperation, kids: seq<AsyncOperation>, error: Value) {
    && f.Keys == {root} + (set k | k in kids) && root !in kids && Bare(root) && root.parent == null && root.above == {}
    && f[root] == STARTED_NEW.(children := kids)
    && forall k :: k in kids ==> f[k] == STARTED_NEW && k.parent == root && k.above == {root} && Reports(k, root, error)
  }

  lemma FamilyIsOk(f: Forest, root: AsyncOperation, kids: seq<AsyncOperation>, error: Value)
    requires Family(f, root, kids, error)
    ensures root in f && Ok(f)
  {
    forall o | o in f
      ensures o.parent != null ==> o.parent in f
      ensures forall c :: c in f[o].children ==> c in f
      ensures Targets(o.onStart, f) && Targets(o.onCancel, f) && Targets(o.onCompleted, f) && Targets(o.onDone, f)
    {
      if o != root { assert o in kids; }
    }
  }

  lemma FamilyIsQuiescent(f: Forest, root: AsyncOperation, kids: seq<AsyncOperation>, error: Value)
    requires Family(f, root, kids, error)
    ensures Tidy(f) && Quiescent(f)
  {
  }

  lemma FamilyIsRooted(f: Forest, root: AsyncOperation, kids: seq<AsyncOperation>, error: Value)
    requires Family(f, root, kids, error)
    ensures Rooted(f)
  {
  }

  lemma FamilyReportsUpward(f: Forest, root: AsyncOperation, kids: seq<AsyncOperation>, error: Value)
    requires Family(f, root, kids, error)
    ensures HooksReachUpward(f)
  {
  }

  lemma FamilyPath(f: Forest, root: AsyncOperation, kids: seq<AsyncOperation>, error: Value, k: AsyncOperation)
    requires Family(f, root, kids, error) && k in kids
    ensures PathFrom(f, root, [root, k])
  {
    assert [root, k][1..] == [k];
    assert Path(f, [k]);
  }

  lemma FamilyGrows(f: Forest, root: AsyncOperation, kids: seq<AsyncOperation>, error: Value, k: AsyncOperation)
    requires Family(f, root, kids, error) && k !in f && k.parent == root && k.above == {root} && Reports(k, root, error)
    ensures var g: Forest := f[k := STARTED_NEW][root := STARTED_NEW.(children := kids + [k])]; Family(g, root, kids + [k], error)
  {
  }

  lemma OkGrows(f: Forest, k: AsyncOperation)
    requires Ok(f) && k !in f && (k.parent != null ==> k.parent in f)
    requires Targets(k.onStart, f) && Targets(k.onCancel, f) && Targets(k.onCompleted, f) && Targets(k.onDone, f)
    ensures Ok(f[k := NEW])
  {
  }

  lemma FamilyGrowsByStart(f: Forest, root: AsyncOperation, kids: seq<AsyncOperation>, error: Value, k: AsyncOperation)
    requires Family(f, root, kids, error) && k !in f && k.parent == root && k.above == {root} && Reports(k, root, error)
    ensures Ok(f[k := NEW]) && root in f && f[root].view == View(Started, false, false)
    ensures Family(AfterStart(f[k := NEW], k), root, kids + [k], error)
  {
    FamilyIsOk(f, root, kids, error);
    OkGrows(f, k);
    FamilyGrows(f, root, kids, error, k);
    var g: Forest := f[k := NEW];
    assert g[k := STARTED_NEW] == f[k := STARTED_NEW];
    hide Ok, AfterStart;
    StartPlain(g, k);
  }

  method NewChild(root: AsyncOperation, kids: seq<AsyncOperation>, error: Value, ghost all: set<AsyncOperation>) returns (k: AsyncOperation)
    requires root in all && Family(Take(all), root, kids, error) && root.above == {}
    modifies all
    ensures fresh(k) && Family(Take(all + {k}), root, kids + [k], error)
  {
    ghost var f := Take(all);
    k := new AsyncOperation(root, false, [], [], [], [CompleteIt(root, error)]);
    assert Take(all + {k}) == f[k := NEW];
    hide Ok, Family, AfterStart;
    FamilyGrowsByStart(f, root, kids, error, k);
    assert f[root].view == root.view;
    k.Start(all + {k});
  }

  method NewRoot() returns (root: AsyncOperation)
    ensures fresh(root) && root.above == {} && forall error :: Family(Take({root}), root, [], error)
  {
    root := new AsyncOperation(null, false, [], [], [], []);
    StartOne(root, {root});
    assert Take({root})[root] == root.Shoot();
  }

  /** An operation with any number of children, each of which completes it from its
      callback: one Cancel completes them all. */
  method CancelFamily(n: nat, error: Value) returns (root: AsyncOperation, kids: seq<AsyncOperation>)
    ensures |kids| == n && root.view.cancelled && Stage(root.view.life) >= 3
    ensures forall k :: k in kids ==> k.view.cancelled && Stage(k.view.life) >= 3 && k.parent == root
  {
    root := NewRoot();
    ghost var all := {root};
    kids := [];
    while |kids| < n
      invariant |kids| <= n && root in all && fresh(all) && Family(Take(all), root, kids, error) && root.above == {}
    {
      hide Family;
      var k := NewChild(root, kids, error, all);
      kids, all := kids + [k], all + {k};
    }
    CancelRoot(root, kids, error, all);
  }

  method CancelRoot(root: AsyncOperation, kids: seq<AsyncOperation>, error: Value, ghost all: set<AsyncOperation>)
    requires root in all && Family(Take(all), root, kids, error)
    modifies all
    ensures root.view.cancelled && Stage(root.view.life) >= 3
    ensures forall k :: k in kids ==> k.view.cancelled && Stage(k.view.life) >= 3 && k.parent == root
  {
    ghost var f := Take(all);
    hide *;
    FamilyIsOk(f, root, kids, error);
    FamilyIsQuiescent(f, root, kids, error);
    FamilyKids(f, root, kids, error);
    FamilyReached(f, root, kids, error);
    Seen(all, root);
    CancelFromOutside(root, true, all, {}, map[]);
    forall k | k in kids ensures k.view.cancelled && Stage(k.view.life) >= 3 { Seen(all, k); }
  }

  lemma FamilyReached(f: Forest, root: AsyncOperation, kids: seq<AsyncOperation>, error: Value)
    requires Family(f, root, kids, error)
    ensures forall k :: k in kids ==>
              k in AfterCancel(f, root, true) && AfterCancel(f, root, true)[k].view.cancelled && Stage(AfterCancel(f, root, true)[k].view.life) >= 3
  {
    var g := AfterCancel(f, root, true);
    hide *;
    FamilyIsOk(f, root, kids, error);
    FamilyIsQuiescent(f, root, kids, error);
    FamilyIsRooted(f, root, kids, error);
    FamilyReportsUpward(f, root, kids, error);
    FamilyKids(f, root, kids, error);
    SweepEvolves(f, root, true);
    forall k | k in kids ensures k in g && g[k].view.cancelled && Stage(g[k].view.life) >= 3 {
      var path := [root, k];
      FamilyPath(f, root, kids, error, k);
      PathStarts(f, root, path);
      UpwardProtects(f, root, path);
      CancelReachesProtected(f, root, true, path, Below(f, root), NeedBelow(f, root));
      assert k in path;
      ReachedKid(f, g, k);
    }
  }

  lemma FamilyKids(f: Forest, root: AsyncOperation, kids: seq<AsyncOperation>, error: Value)
    requires Family(f, root, kids, error)
    ensures root in f && f[root].view == View(Started, false, false) && f[root].children == kids
    ensures forall k :: k in kids ==> k in f && f[k].view == View(Started, false, false) && !Expired(f, k) && !k.skip && k.parent == root
  {
  }

  lemma ReachedKid(f: Forest, g: Forest, k: AsyncOperation)
    requires k in f && f[k].view == View(Started, false, false) && !k.skip && Reached(k, f, g)
    ensures k in g && Stage(g[k].view.life) >= 3
  {
  }
}
