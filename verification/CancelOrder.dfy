/** Exactly when a recursive cancel misses a child, for one callback anywhere in the
    tree that completes one operation anywhere in the tree: it depends on the order
    in which the branches of the tree are cancelled. */
module CancelOrder {
  import opened LifecycleWord
  import opened ErrorCodes
  import opened CancelTree
  import opened CancelEffects
  import opened CancelReach
  import opened CancelPlain

  // ---------------------------------------------------------------- what stays inside a region

  ghost predicate StaysIn(actions: seq<Action>, region: set<AsyncOperation>) {
    forall i :: 0 <= i < |actions| ==> actions[i].target in region
  }

  /** Child lists and hooks of the region do not lead out of it. */
  ghost predicate Closed(f: Forest, region: set<AsyncOperation>) {
    forall o :: o in f && o in region ==>
      && (forall c :: c in f[o].children ==> c in region)
      && StaysIn(o.onCancel, region) && StaysIn(o.onCompleted, region) && StaysIn(o.onDone, region)
  }

  ghost predicate ParentOf(region: set<AsyncOperation>, o: AsyncOperation) {
    exists c :: c in region && c.parent == o
  }

  /** Outside of the region only the child lists of its parents have changed. */
  ghost predicate Within(f: Forest, g: Forest, region: set<AsyncOperation>) {
    && g.Keys == f.Keys
    && forall o :: o in f && o !in region ==>
         g[o] == f[o].(children := g[o].children) && (!ParentOf(region, o) ==> g[o] == f[o])
  }

  lemma WithinTransitive(f: Forest, g: Forest, h: Forest, region: set<AsyncOperation>)
    requires Within(f, g, region) && Within(g, h, region)
    ensures Within(f, h, region)
  {
    hide ParentOf;
  }

  lemma WithinReflexive(f: Forest, region: set<AsyncOperation>)
    ensures Within(f, f, region)
  {
  }

  lemma ClosedLater(f: Forest, g: Forest, region: set<AsyncOperation>)
    requires Later(f, g) && Closed(f, region)
    ensures Closed(g, region)
  {
    forall o | o in g ensures forall c :: c in g[o].children ==> c in f[o].children { LaterAt(f, g, o); }
  }

  lemma ClosedAt(f: Forest, region: set<AsyncOperation>, x: AsyncOperation)
    requires Closed(f, region) && x in f && x in region
    ensures StaysIn(x.onCancel, region) && StaysIn(x.onCompleted, region) && StaysIn(x.onDone, region)
    ensures forall c :: c in f[x].children ==> c in region
  {
  }

  lemma UpdateWithin(f: Forest, x: AsyncOperation, b: Shot, region: set<AsyncOperation>)
    requires x in f && x in region && Closed(f, region) && LaterShot(f[x], b)
    ensures var h: Forest := f[x := b]; Within(f, h, region) && Later(f, h) && Closed(h, region) && Potential(h) <= Potential(f)
  {
    LaterUpdate(f, x, b);
    ClosedLater(f, f[x := b], region);
    hide Potential;
    LaterShrinks(f, f[x := b], null);
  }

  lemma StepShots(a: Shot, error: Value)
    ensures LaterShot(a, Published(a, error)) && LaterShot(a, Claimed(a)) && LaterShot(a, a.(fired := a.fired + 1)) && LaterShot(a, Marked(a))
  {
  }

  lemma HookWithin(f: Forest, actions: seq<Action>, region: set<AsyncOperation>)
    requires Closed(f, region) && StaysIn(actions, region)
    ensures Within(f, AfterHook(f, actions), region)
    decreases Potential(f), 2, |actions|
  {
    hide *;
    HookUnfolds(f, actions);
    WithinReflexive(f, region);
    if actions != [] {
      var g := AfterAction(f, actions[0]);
      StaysOn(actions, region);
      ActionWithin(f, actions[0], region);
      ClosedLater(f, g, region);
      LaterShrinks(f, g, null);
      HookWithin(g, actions[1..], region);
      WithinTransitive(f, g, AfterHook(g, actions[1..]), region);
    }
  }

  lemma StaysOn(actions: seq<Action>, region: set<AsyncOperation>)
    requires actions != [] && StaysIn(actions, region)
    ensures actions[0].target in region && StaysIn(actions[1..], region)
  {
  }

  lemma ActionWithin(f: Forest, a: Action, region: set<AsyncOperation>)
    requires Closed(f, region) && a.target in region
    ensures Within(f, AfterAction(f, a), region)
    decreases Potential(f), 1, 0
  {
    hide Closed, Within, Potential, AfterTryComplete, AfterCancel, Later;
    match a
    case CompleteIt(target, error) => TryCompleteWithin(f, target, error, region);
    case CancelIt(target, force) => CancelWithin(f, target, force, region);
  }

  lemma TryCompleteWithin(f: Forest, x: AsyncOperation, error: Value, region: set<AsyncOperation>)
    requires Closed(f, region) && x in region
    ensures Within(f, AfterTryComplete(f, x, error), region)
    decreases Potential(f), 0, 0
  {
    hide *;
    WithinReflexive(f, region);
    if x in f { TryCompleteUnfolds(f, x, error); } else { NothingToComplete(f, x, error); }
    if x in f && f[x].view.life == Started {
      var h: Forest := f[x := Claimed(f[x])];
      StepShots(f[x], error);
      ClaimSpares(f, x, {});
      ClaimShrinks(f, x);
      UpdateWithin(f, x, Claimed(f[x]), region);
      FinishWithin(h, x, error, region);
      WithinTransitive(f, h, AfterFinish(h, x, error), region);
    }
  }

  lemma FinishWithin(f: Forest, x: AsyncOperation, error: Value, region: set<AsyncOperation>)
    requires x in f && x in region && Stage(f[x].view.life) >= 2 && Closed(f, region)
    ensures Within(f, AfterFinish(f, x, error), region)
    decreases Potential(f), 4, 0
  {
    hide *;
    FinishUnfolds(f, x, error);
    StepShots(f[x], error);
    UpdateWithin(f, x, Published(f[x], error), region);
    var h: Forest := f[x := Published(f[x], error)];
    ClosedAt(h, region, x);
    HookWithin(h, x.onCompleted, region);
    var i := AfterHook(h, x.onCompleted);
    ClosedLater(h, i, region);
    LaterShrinks(h, i, null);
    WithinTransitive(f, h, i, region);
    FinishWithinToo(f, i, x, region);
  }

  lemma FinishWithinToo(f: Forest, i: Forest, x: AsyncOperation, region: set<AsyncOperation>)
    requires x in i && x in region && Closed(i, region) && Within(f, i, region) && Potential(i) <= Potential(f)
    requires x in AfterCallback(i, x) && Stage(AfterCallback(i, x)[x].view.life) >= 3
    ensures Within(f, AfterCleanup(AfterCallback(i, x), x), region)
    decreases Potential(f), 3, 1
  {
    hide *;
    CallbackWithin(i, x, region);
    var j := AfterCallback(i, x);
    CleanupWithin(j, x, region);
    WithinTransitive(f, i, j, region);
    WithinTransitive(f, j, AfterCleanup(j, x), region);
  }

  lemma CallbackWithin(f: Forest, x: AsyncOperation, region: set<AsyncOperation>)
    requires x in f && x in region && Closed(f, region)
    ensures Within(f, AfterCallback(f, x), region)
    decreases Potential(f), 3, 0
  {
    hide *;
    CallbackUnfolds(f, x);
    WithinReflexive(f, region);
    if f[x].callback {
      var h: Forest := f[x := f[x].(fired := f[x].fired + 1)];
      StepShots(f[x], SUCCESS);
      UpdateWithin(f, x, f[x].(fired := f[x].fired + 1), region);
      ClosedAt(h, region, x);
      HookWithin(h, x.onDone, region);
      WithinTransitive(f, h, AfterHook(h, x.onDone), region);
    }
  }

  lemma CleanupWithin(f: Forest, x: AsyncOperation, region: set<AsyncOperation>)
    requires x in f && x in region && Stage(f[x].view.life) >= 3
    ensures Within(f, AfterCleanup(f, x), region)
  {
    hide AfterCleanup, Detached, ParentOf;
    CleanupUnfolds(f, x);
    DetachWithin(f[x := Dropped(f[x])], x, region);
  }

  lemma DetachWithin(f: Forest, x: AsyncOperation, region: set<AsyncOperation>)
    requires x in f && x in region
    ensures Within(f, Detached(f, x), region)
  {
    hide Remaining;
    if x.parent != null { assert ParentOf(region, x.parent); }
  }

  lemma CancelWithin(f: Forest, x: AsyncOperation, force: bool, region: set<AsyncOperation>)
    requires Closed(f, region) && x in region
    ensures Within(f, AfterCancel(f, x, force), region)
    decreases Potential(f), 0, 0
  {
    hide *;
    WithinReflexive(f, region);
    if x in f { CancelUnfolds(f, x, force); } else { NothingToCancel(f, x, force); }
    if x in f && !f[x].view.cancelled {
      var h: Forest := f[x := Marked(f[x])];
      var found := Live(f, f[x].children);
      StepShots(f[x], SUCCESS);
      ClosedAt(f, region, x);
      UpdateWithin(f, x, Marked(f[x]), region);
      MarkSpares(f, x, {});
      LaterShrinks(f, h, x);
      FoundWithin(f, f[x].children, region);
      CancelAllWithin(h, found, region);
      var i := AfterCancelAll(h, found);
      ClosedLater(h, i, region);
      LaterAt(h, i, x);
      LaterShrinks(h, i, null);
      EndWithin(i, x, force, region);
      WithinTransitive(f, h, i, region);
      WithinTransitive(f, i, AfterEnd(i, x, force), region);
    }
  }

  lemma FoundWithin(f: Forest, list: seq<AsyncOperation>, region: set<AsyncOperation>)
    requires forall c :: c in list ==> c in region
    ensures forall c :: c in Live(f, list) ==> c in region
  {
  }

  lemma CancelAllWithin(f: Forest, found: seq<AsyncOperation>, region: set<AsyncOperation>)
    requires Closed(f, region) && forall c :: c in found ==> c in region
    ensures Within(f, AfterCancelAll(f, found), region)
    decreases Potential(f), 2, |found|
  {
    hide *;
    CancelAllUnfolds(f, found);
    WithinReflexive(f, region);
    if found != [] {
      var h := AfterCancel(f, found[0], false);
      CancelWithin(f, found[0], false, region);
      ClosedLater(f, h, region);
      LaterShrinks(f, h, null);
      CancelAllWithin(h, found[1..], region);
      WithinTransitive(f, h, AfterCancelAll(h, found[1..]), region);
    }
  }

  lemma EndWithin(f: Forest, x: AsyncOperation, force: bool, region: set<AsyncOperation>)
    requires x in f && x in region && Closed(f, region)
    ensures Within(f, AfterEnd(f, x, force), region)
    decreases Potential(f), 5, 0
  {
    hide *;
    EndUnfolds(f, x, force);
    WithinReflexive(f, region);
    ClosedAt(f, region, x);
    if !force && x.skip {
      HookWithin(f, x.onCancel, region);
    } else if f[x].view.life == Started {
      var h: Forest := f[x := Claimed(f[x])];
      StepShots(f[x], SUCCESS);
      ClaimShrinks(f, x);
      UpdateWithin(f, x, Claimed(f[x]), region);
      HookWithin(h, x.onCancel, region);
      var i := AfterHook(h, x.onCancel);
      ClosedLater(h, i, region);
      LaterShrinks(h, i, null);
      FinishWithin(i, x, OPERATION_CANCELED, region);
      WithinTransitive(f, h, i, region);
      WithinTransitive(f, i, AfterFinish(i, x, OPERATION_CANCELED), region);
    }
  }

  // ---------------------------------------------------------------- branches

  /** y is the one operation with a hook, and its callback completes z. */
  ghost predicate OneCallback(f: Forest, y: AsyncOperation, z: AsyncOperation, error: Value) {
    && Ok(f) && Tidy(f) && Quiescent(f) && Rooted(f) && y in f && z in f
    && y.onCancel == [] && y.onCompleted == [] && y.onDone == [CompleteIt(z, error)]
    && forall o :: o in f && o != y ==> Hookless(o)
  }

  lemma RootedLater(f: Forest, g: Forest)
    requires Rooted(f) && Later(f, g)
    ensures Rooted(g)
  {
    forall o | o in g ensures forall c :: c in g[o].children ==> c in f[o].children { LaterAt(f, g, o); }
  }

  lemma OneCallbackLater(f: Forest, g: Forest, y: AsyncOperation, z: AsyncOperation, error: Value)
    requires OneCallback(f, y, z, error) && Later(f, g) && Quiescent(g)
    ensures OneCallback(g, y, z, error)
  {
    OkLater(f, g);
    TidyLater(f, g);
    RootedLater(f, g);
    hide Ok, Tidy, Quiescent, Rooted, Later, Hookless;
    assert f.Keys == g.Keys by { LaterKeys(f, g); }
  }

  lemma {:induction false} Comparable(f: Forest, o: AsyncOperation, s: AsyncOperation, t: AsyncOperation)
    requires Rooted(f) && o in f && s in o.above && t in o.above
    ensures s == t || s in t.above || t in s.above
    decreases |o.above|
  {
    var p: AsyncOperation := o.parent;
    SmallerAbove(f, o);
    if s != p && t != p { Comparable(f, p, s, t); }
  }

  lemma SmallerAbove(f: Forest, o: AsyncOperation)
    requires Rooted(f) && o in f && o.above != {}
    ensures o.parent != null && o.parent in f && o.above == o.parent.above + {o.parent} && |o.parent.above| < |o.above|
  {
    assert o.parent in o.above;
    SubsetSize(o.parent.above, o.above);
  }

  /** Nothing is below two children of the same operation. */
  lemma SiblingsApart(f: Forest, p: AsyncOperation, q: AsyncOperation, o: AsyncOperation)
    requires Rooted(f) && p in f && q in f && p != q && p.parent != null && p.parent == q.parent && o in Below(f, p)
    ensures o !in Below(f, q)
  {
    assert p.parent in p.above && p.parent in q.above;
    if o in Below(f, q) && o != p && o != q { Comparable(f, o, p, q); }
  }

  lemma BelowIsClosed(f: Forest, y: AsyncOperation, z: AsyncOperation, error: Value, b: AsyncOperation)
    requires OneCallback(f, y, z, error) && b in f && y !in Below(f, b)
    ensures Closed(f, Below(f, b))
  {
    hide Tidy, Quiescent;
    forall o | o in f && o in Below(f, b)
      ensures forall c :: c in f[o].children ==> c in Below(f, b)
      ensures StaysIn(o.onCancel, Below(f, b)) && StaysIn(o.onCompleted, Below(f, b)) && StaysIn(o.onDone, Below(f, b))
    {
      OkMeans(f, o);
      forall c | c in f[o].children ensures c in Below(f, b) { ChildBelow(f, b, o, c); }
      assert Hookless(o);
    }
  }

  ghost function Branches(f: Forest, list: seq<AsyncOperation>): set<AsyncOperation> {
    set o, b | b in list && o in Below(f, b) :: o
  }

  lemma BranchesAreClosed(f: Forest, y: AsyncOperation, z: AsyncOperation, error: Value, list: seq<AsyncOperation>)
    requires OneCallback(f, y, z, error) && forall b :: b in list ==> b in f && y !in Below(f, b)
    ensures Closed(f, Branches(f, list))
  {
    var region := Branches(f, list);
    forall o | o in f && o in region
      ensures forall c :: c in f[o].children ==> c in region
      ensures StaysIn(o.onCancel, region) && StaysIn(o.onCompleted, region) && StaysIn(o.onDone, region)
    {
      var b :| b in list && o in Below(f, b);
      BelowIsClosed(f, y, z, error, b);
      ClosedAt(f, Below(f, b), o);
      assert Hookless(o);
    }
  }

  /** Outside of these branches nothing has changed but the list of x. */
  ghost predicate Spared(f: Forest, g: Forest, x: AsyncOperation, list: seq<AsyncOperation>) {
    && g.Keys == f.Keys
    && (forall o :: o in f && o != x && o !in Branches(f, list) ==> g[o] == f[o])
    && (x in f && x !in Branches(f, list) ==> g[x] == f[x].(children := g[x].children))
  }

  /** Cancelling branches without the callback touches nothing else, except the list
      of their parent. */
  lemma QuietBranches(f: Forest, y: AsyncOperation, z: AsyncOperation, error: Value, x: AsyncOperation, list: seq<AsyncOperation>)
    requires OneCallback(f, y, z, error) && forall b :: b in list ==> b in f && b.parent == x && y !in Below(f, b)
    ensures Spared(f, AfterCancelAll(f, list), x, list)
  {
    BranchesAreClosed(f, y, z, error, list);
    forall b | b in list ensures b in Branches(f, list) { assert b in Below(f, b); }
    assert Rooted(f);
    hide OneCallback, Branches, AfterCancelAll, Closed, Below, Rooted;
    CancelAllWithin(f, list, Branches(f, list));
    WithinBranches(f, AfterCancelAll(f, list), x, list);
  }

  lemma WithinBranches(f: Forest, g: Forest, x: AsyncOperation, list: seq<AsyncOperation>)
    requires Rooted(f) && Within(f, g, Branches(f, list)) && forall b :: b in list ==> b in f && b.parent == x
    ensures Spared(f, g, x, list)
  {
    forall o | o in f && o != x && o !in Branches(f, list) ensures g[o] == f[o] { ParentsOfBranches(f, x, list, o); }
  }

  lemma ParentsOfBranches(f: Forest, x: AsyncOperation, list: seq<AsyncOperation>, o: AsyncOperation)
    requires Rooted(f) && o != x && o !in Branches(f, list) && forall b :: b in list ==> b in f && b.parent == x
    ensures !ParentOf(Branches(f, list), o)
  {
    forall c | c in Branches(f, list) ensures c.parent != o {
      var b :| b in list && c in Below(f, b);
      if c != b {
        ParentBelow(f, b, c);
        assert c.parent in Branches(f, list);
      }
    }
  }

  lemma ParentBelow(f: Forest, b: AsyncOperation, c: AsyncOperation)
    requires Rooted(f) && c in Below(f, b) && c != b
    ensures c.parent != null && c.parent in Below(f, b)
  {
    assert c.parent in c.above;
  }

  // ---------------------------------------------------------------- the order of branches

  /** p comes before q in the list, at its first place. */
  ghost predicate Before(list: seq<AsyncOperation>, p: AsyncOperation, q: AsyncOperation) {
    list != [] && list[0] != q && (list[0] == p || Before(list[1..], p, q))
  }

  /** The paths from one operation to y and to z part somewhere, and where they part the
      branch of z is cancelled after that of y. */
  ghost predicate ComesAfter(f: Forest, toY: seq<AsyncOperation>, toZ: seq<AsyncOperation>)
    decreases |toY|
  {
    && |toY| > 1 && |toZ| > 1 && toY[0] == toZ[0] && toY[0] in f
    && (if toY[1] == toZ[1] then ComesAfter(f, toY[1..], toZ[1..])
        else Before(Live(f, f[toY[0]].children), toY[1], toZ[1]))
  }

  lemma {:induction false} FirstOf(list: seq<AsyncOperation>, p: AsyncOperation) returns (before: seq<AsyncOperation>, after: seq<AsyncOperation>)
    requires p in list
    ensures list == before + [p] + after && p !in before
  {
    if list[0] == p {
      before, after := [], list[1..];
      assert list == [] + [p] + list[1..];
    } else {
      before, after := FirstOf(list[1..], p);
      before := [list[0]] + before;
      assert list == [list[0]] + list[1..];
    }
  }

  lemma {:induction false} BeforeMeans(list: seq<AsyncOperation>, p: AsyncOperation, q: AsyncOperation, before: seq<AsyncOperation>, after: seq<AsyncOperation>)
    requires list == before + [p] + after && p !in before && p != q
    ensures Before(list, p, q) <==> q !in before
  {
    if before != [] {
      assert list[1..] == before[1..] + [p] + after;
      assert q in before <==> q == before[0] || q in before[1..];
      BeforeMeans(list[1..], p, q, before[1..], after);
    }
  }

  /** Of two members of a list one comes first. */
  lemma {:induction false} EitherBefore(list: seq<AsyncOperation>, p: AsyncOperation, q: AsyncOperation)
    requires p in list && q in list && p != q
    ensures Before(list, p, q) <==> !Before(list, q, p)
  {
    if list[0] != p && list[0] != q { EitherBefore(list[1..], p, q); }
  }

  lemma {:induction false} CancelAllSplits(f: Forest, a: seq<AsyncOperation>, b: seq<AsyncOperation>)
    ensures AfterCancelAll(f, a + b) == AfterCancelAll(AfterCancelAll(f, a), b)
    decreases |a|
  {
    hide AfterCancelAll, AfterCancel;
    CancelAllUnfolds(f, a + b);
    CancelAllUnfolds(f, a);
    if a == [] {
      assert a + b == b;
    } else {
      assert (a + b)[1..] == a[1..] + b;
      CancelAllSplits(AfterCancel(f, a[0], false), a[1..], b);
    }
  }

  // ---------------------------------------------------------------- branches without the callback

  ghost function NeedOutside(f: Forest, y: AsyncOperation): Need {
    map o | o in f :: if o == y || o in y.above then f.Keys else {}
  }

  lemma CallbackIsGuarded(f: Forest, y: AsyncOperation, z: AsyncOperation, error: Value)
    requires OneCallback(f, y, z, error)
    ensures Guarded(f, f.Keys, NeedOutside(f, y))
  {
    assert Ok(f) && Rooted(f);
    hide OneCallback, NeedOutside, Obeys, Ok, Rooted;
    ChildrenNeedNoMore(f, y);
    HooksObey(f, y, z, error);
  }

  lemma HooksObey(f: Forest, y: AsyncOperation, z: AsyncOperation, error: Value)
    requires OneCallback(f, y, z, error)
    ensures var need := NeedOutside(f, y);
            forall o :: o in f ==>
              && o in need && Obeys(o.onCancel, o, f.Keys, need) && Obeys(o.onCompleted, o, f.Keys, need) && Obeys(o.onDone, o, f.Keys, need)
  {
    hide Ok, Tidy, Quiescent, Rooted;
    var need := NeedOutside(f, y);
    assert need[z] <= need[y] + {y} && z in need[y];
    forall o | o in f
      ensures o in need && Obeys(o.onCancel, o, f.Keys, need) && Obeys(o.onCompleted, o, f.Keys, need) && Obeys(o.onDone, o, f.Keys, need)
    {
      if o != y { assert Hookless(o); }
    }
  }

  lemma ChildrenNeedNoMore(f: Forest, y: AsyncOperation)
    requires Ok(f) && Rooted(f) && y in f
    ensures var need := NeedOutside(f, y);
            forall o, c :: o in f && c in f[o].children ==> o in need && c in need && need[c] <= need[o] + {o}
  {
    var need := NeedOutside(f, y);
    forall o, c | o in f && c in f[o].children ensures o in need && c in need && need[c] <= need[o] + {o} {
      OkMeans(f, o);
      assert c.parent == o && o in c.above;
    }
  }

  /** Nothing is discarded as long as only branches without the callback are cancelled. */
  lemma QuietSpares(f: Forest, y: AsyncOperation, z: AsyncOperation, error: Value, list: seq<AsyncOperation>)
    requires OneCallback(f, y, z, error) && forall b :: b in list ==> b in f && y !in Below(f, b)
    ensures Spares(f, AfterCancelAll(f, list), f.Keys)
  {
    CallbackIsGuarded(f, y, z, error);
    var need := NeedOutside(f, y);
    forall b | b in list ensures Ready(f, b, f.Keys, need) { assert need[b] == {}; }
    hide OneCallback, Guarded, Ready, AfterCancelAll;
    CancelAllSpares(f, list, f.Keys, need);
  }

  ghost predicate Gone(g: Forest, z: AsyncOperation, c: AsyncOperation) {
    z in g && c !in g[z].children && c !in g[z].dropped
  }

  lemma GoneStays(f: Forest, g: Forest, z: AsyncOperation, c: AsyncOperation)
    requires Later(f, g) && Gone(f, z, c)
    ensures Gone(g, z, c)
  {
    LaterAt(f, g, z);
  }

  /** So such branches are reached altogether. */
  lemma QuietReaches(f: Forest, y: AsyncOperation, z: AsyncOperation, error: Value, list: seq<AsyncOperation>, path: seq<AsyncOperation>, c: AsyncOperation)
    requires OneCallback(f, y, z, error) && forall b :: b in list ==> b in f && y !in Below(f, b)
    requires Path(f, path) && path[0] in list && path[|path| - 1] == z && c in f[z].children
    ensures Gone(AfterCancelAll(f, list), z, c)
  {
    var g := AfterCancelAll(f, list);
    assert Ok(f) && Tidy(f) && Quiescent(f);
    QuietSpares(f, y, z, error, list);
    PathInside(f, path);
    assert z in path && f[z].dropped == {};
    hide OneCallback, AfterCancelAll, Ok, Rooted;
    CancelAllEvolves(f, list);
    LaterOf(f, g, null);
    TidyLater(f, g);
    QuiescentStays(f, g);
    SparedIsUndropped(f, g, f.Keys, path);
    CancelReaches(f, g, path);
    assert Reached(z, f, g);
  }

  // ---------------------------------------------------------------- one level down

  lemma MarkKeepsOne(f: Forest, x: AsyncOperation, y: AsyncOperation, z: AsyncOperation, error: Value)
    requires OneCallback(f, y, z, error) && x in f && !f[x].view.cancelled
    ensures var m: Forest := f[x := Marked(f[x])]; OneCallback(m, y, z, error) && Later(f, m) && m.Keys == f.Keys
  {
    var m: Forest := f[x := Marked(f[x])];
    hide *;
    Means(f, y, z, error);
    MarkSpares(f, x, {});
    MarkIsQuiescent(f, x);
    OneCallbackLater(f, m, y, z, error);
    LaterKeys(f, m);
  }

  lemma MarkIsQuiescent(f: Forest, x: AsyncOperation)
    requires Quiescent(f) && x in f
    ensures Quiescent(f[x := Marked(f[x])])
  {
  }

  lemma CancelAllKeepsOne(f: Forest, y: AsyncOperation, z: AsyncOperation, error: Value, list: seq<AsyncOperation>)
    requires OneCallback(f, y, z, error) && forall b :: b in list ==> b in f
    ensures var g := AfterCancelAll(f, list); OneCallback(g, y, z, error) && Later(f, g) && g.Keys == f.Keys
  {
    var g := AfterCancelAll(f, list);
    assert Ok(f) && Quiescent(f);
    hide OneCallback, AfterCancelAll, Ok, Quiescent;
    CancelAllEvolves(f, list);
    LaterOf(f, g, null);
    LaterKeys(f, g);
    QuiescentStays(f, g);
    OneCallbackLater(f, g, y, z, error);
  }

  /** The forest in which the branch after these has its turn in the cancel of x. */
  ghost function AtBranch(f: Forest, x: AsyncOperation, before: seq<AsyncOperation>): Forest
    requires x in f
  {
    AfterCancelAll(f[x := Marked(f[x])], before)
  }

  lemma Descends(f: Forest, x: AsyncOperation, y: AsyncOperation, z: AsyncOperation, error: Value, before: seq<AsyncOperation>)
    requires OneCallback(f, y, z, error) && x in f && !f[x].view.cancelled
    requires forall b :: b in before ==> b in f && b.parent == x && y !in Below(f, b)
    ensures var i := AtBranch(f, x, before); OneCallback(i, y, z, error) && Later(f, i) && i.Keys == f.Keys
    ensures UnchangedBut(f, AtBranch(f, x, before), x, before)
  {
    var m: Forest := f[x := Marked(f[x])];
    MarkKeepsOne(f, x, y, z, error);
    BelowSame(f, m);
    BranchesSame(f, m, before);
    hide OneCallback, AfterCancelAll, Later, Marked, Below, Branches;
    QuietBranches(m, y, z, error, x, before);
    CancelAllKeepsOne(m, y, z, error, before);
    LaterTransitive(f, m, AtBranch(f, x, before));
    MarkThenSpare(f, x, before, AtBranch(f, x, before));
  }

  ghost predicate UnchangedBut(f: Forest, g: Forest, x: AsyncOperation, list: seq<AsyncOperation>) {
    g.Keys == f.Keys && forall o :: o in f && o != x && o !in Branches(f, list) ==> g[o] == f[o]
  }

  lemma MarkThenSpare(f: Forest, x: AsyncOperation, list: seq<AsyncOperation>, g: Forest)
    requires x in f && Spared(f[x := Marked(f[x])], g, x, list) && Branches(f[x := Marked(f[x])], list) == Branches(f, list)
    ensures UnchangedBut(f, g, x, list)
  {
    hide Branches, Marked;
  }

  lemma BranchesSame(f: Forest, g: Forest, list: seq<AsyncOperation>)
    requires f.Keys == g.Keys
    ensures Branches(f, list) == Branches(g, list)
  {
    BelowSame(f, g);
  }

  lemma CancelInParts(f: Forest, before: seq<AsyncOperation>, p: AsyncOperation, after: seq<AsyncOperation>)
    ensures AfterCancelAll(f, before + [p] + after) == AfterCancelAll(AfterCancel(AfterCancelAll(f, before), p, false), after)
  {
    hide AfterCancelAll, AfterCancel;
    CancelAllSplits(f, before + [p], after);
    CancelAllSplits(f, before, [p]);
    CancelAllUnfolds(AfterCancelAll(f, before), [p]);
    CancelAllUnfolds(AfterCancel(AfterCancelAll(f, before), p, false), []);
    assert [p][1..] == [];
  }

  /** What branch p leaves behind is where the rest of the cancel of x starts from. */
  lemma GoesOn(f: Forest, x: AsyncOperation, force: bool, before: seq<AsyncOperation>, p: AsyncOperation, after: seq<AsyncOperation>)
    requires x in f && !f[x].view.cancelled && Live(f, f[x].children) == before + [p] + after
    ensures Later(AfterCancel(AtBranch(f, x, before), p, false), AfterCancel(f, x, force))
  {
    var m: Forest := f[x := Marked(f[x])];
    var k := AfterCancel(AtBranch(f, x, before), p, false);
    var j := AfterCancelAll(k, after);
    hide AfterCancelAll, AfterCancel, AfterEnd, Later, Live, Marked;
    CancelUnfolds(f, x, force);
    CancelInParts(m, before, p, after);
    LaterTransitive(m, AtBranch(f, x, before), k);
    LaterTransitive(m, k, j);
    LaterKeys(m, j);
    LaterTransitive(k, j, AfterEnd(j, x, force));
  }

  lemma BelowSame(f: Forest, g: Forest)
    requires f.Keys == g.Keys
    ensures forall o :: Below(f, o) == Below(g, o)
  {
  }

  // ---------------------------------------------------------------- the branch with the callback

  /** The callback is going to run when y is cancelled, and finds z started. */
  ghost predicate Fires(f: Forest, y: AsyncOperation, z: AsyncOperation) {
    && y in f && f[y].view.life == Started && !f[y].view.cancelled && f[y].callback && !y.skip
    && z in f && f[z].view.life == Started
  }

  ghost predicate LeadsTo(f: Forest, x: AsyncOperation, path: seq<AsyncOperation>, y: AsyncOperation) {
    Path(f, path) && path[0] == x && path[|path| - 1] == y
  }

  lemma {:induction false} PathSame(f: Forest, g: Forest, path: seq<AsyncOperation>)
    requires Path(f, path) && f.Keys == g.Keys && forall o :: o in path && o in f ==> g[o] == f[o]
    ensures Path(g, path)
    decreases |path|
  {
    assert path[0] in path;
    if |path| > 1 {
      assert path[1] in path;
      PathSame(f, g, path[1..]);
    }
  }

  /** The first step of a path. */
  lemma FirstStep(f: Forest, x: AsyncOperation, path: seq<AsyncOperation>, y: AsyncOperation)
    requires Ok(f) && Tidy(f) && Rooted(f) && LeadsTo(f, x, path, y) && |path| > 1
    ensures x in f && !f[x].view.cancelled && path[1] in Live(f, f[x].children) && path[1] in f && path[1].parent == x
    ensures LeadsTo(f, path[1], path[1..], y) && x !in Below(f, path[1]) && forall o :: o in path[1..] ==> o in Below(f, path[1])
    ensures y in Below(f, path[1]) && y in Below(f, x)
  {
    PathBelow(f, path[1], path[1..]);
    assert path[|path| - 1] == path[1..][|path| - 2];
    assert y in path[1..];
  }

  /** The members of a list of live children are children. */
  lemma LiveChildren(f: Forest, x: AsyncOperation)
    requires Ok(f) && Rooted(f) && x in f
    ensures forall b :: b in Live(f, f[x].children) ==> b in f && b.parent == x
  {
    OkMeans(f, x);
  }

  /** What is below p is in no other branch. */
  lemma NotInBranches(f: Forest, x: AsyncOperation, p: AsyncOperation, list: seq<AsyncOperation>, o: AsyncOperation)
    requires Rooted(f) && p in f && p.parent == x && o in Below(f, p) && p !in list
    requires forall b :: b in list ==> b in f && b.parent == x
    ensures o !in Branches(f, list) && o != x && forall b :: b in list ==> o !in Below(f, b)
  {
    forall b | b in list ensures o !in Below(f, b) { SiblingsApart(f, p, b, o); }
  }

  lemma DroppedStays(f: Forest, g: Forest, z: AsyncOperation, c: AsyncOperation)
    requires Later(f, g) && z in f && c in f[z].dropped
    ensures z in g && c in g[z].dropped
  {
    LaterAt(f, g, z);
  }

  /** Cancelling a branch that holds the callback, and not z, discards the children of z. */
  lemma {:induction false} BranchDiscards(f: Forest, x: AsyncOperation, y: AsyncOperation, z: AsyncOperation, error: Value,
                                          toY: seq<AsyncOperation>, c: AsyncOperation)
    requires OneCallback(f, y, z, error) && LeadsTo(f, x, toY, y) && Fires(f, y, z)
    requires z !in Below(f, x) && c in f[z].children
    ensures z in AfterCancel(f, x, false) && c in AfterCancel(f, x, false)[z].dropped
    decreases |toY|
  {
    if |toY| == 1 {
      CallbackAtEnd(f, y, z, error, c);
    } else {
      var p := toY[1];
      FirstStep(f, x, toY, y);
      LiveChildren(f, x);
      var before, after := FirstOf(Live(f, f[x].children), p);
      forall o | o in toY[1..] ensures o !in Branches(f, before) && o != x && forall b :: b in before ==> o !in Below(f, b) {
        NotInBranches(f, x, p, before, o);
      }
      assert y in toY[1..];
      NotBelowElsewhere(f, x, before, z);
      NotBelowElsewhere(f, x, [p], z);
      hide Below, Branches, OneCallback, Path, AfterCancel, Later;
      Descends(f, x, y, z, error, before);
      var i := AtBranch(f, x, before);
      PathSame(f, i, toY[1..]);
      BelowSame(f, i);
      BranchDiscards(i, p, y, z, error, toY[1..], c);
      GoesOn(f, x, false, before, p, after);
      DroppedStays(AfterCancel(i, p, false), AfterCancel(f, x, false), z, c);
    }
  }

  lemma NotBelowElsewhere(f: Forest, x: AsyncOperation, list: seq<AsyncOperation>, z: AsyncOperation)
    requires Rooted(f) && x in f && z in f && z !in Below(f, x) && forall b :: b in list ==> b in f && b.parent == x
    ensures z !in Branches(f, list) && z != x && forall b :: b in list ==> z !in Below(f, b)
  {
    forall b | b in list ensures z !in Below(f, b) { assert x in b.above; }
  }

  /** At y itself: its own branches first, then its callback. */
  lemma CallbackAtEnd(f: Forest, y: AsyncOperation, z: AsyncOperation, error: Value, c: AsyncOperation)
    requires OneCallback(f, y, z, error) && Fires(f, y, z) && z !in Below(f, y) && c in f[z].children
    ensures z in AfterCancel(f, y, false) && c in AfterCancel(f, y, false)[z].dropped
  {
    var i := AtBranch(f, y, Live(f, f[y].children));
    Ends(f, y, z, error);
    OwnBranchesFirst(f, y, z, error);
    hide *;
    CancelUnfolds(f, y, false);
    EndFires(i, y, z, error);
  }

  /** When the branches of y are done, y is about to complete and z is as it was. */
  lemma OwnBranchesFirst(f: Forest, y: AsyncOperation, z: AsyncOperation, error: Value)
    requires OneCallback(f, y, z, error) && Fires(f, y, z) && z !in Below(f, y)
    ensures var i := AtBranch(f, y, Live(f, f[y].children));
            y in i && i[y].view.life == Started && i[y].callback && z in i && i[z] == f[z]
  {
    var m: Forest := f[y := Marked(f[y])];
    var list := Live(f, f[y].children);
    hide OneCallback, Fires, Below, Branches, AfterCancelAll, Live, Marked, Later, Ok, Tidy, Quiescent, Rooted;
    Means(f, y, z, error);
    FiringMeans(f, y, z);
    LiveChildren(f, y);
    NotBelowElsewhere(f, y, list, z);
    ChildrenAreBelow(f, y, list);
    BelowSame(f, m);
    BranchesSame(f, m, list);
    MarkKeepsOne(f, y, y, z, error);
    QuietBranches(m, y, z, error, y, list);
  }

  lemma FiringMeans(f: Forest, y: AsyncOperation, z: AsyncOperation)
    requires Fires(f, y, z)
    ensures y in f && !f[y].view.cancelled && z in f && Marked(f[y]).view.life == Started && Marked(f[y]).callback
  {
  }

  lemma Means(f: Forest, y: AsyncOperation, z: AsyncOperation, error: Value)
    requires OneCallback(f, y, z, error)
    ensures Ok(f) && Tidy(f) && Quiescent(f) && Rooted(f) && y in f && z in f
  {
  }

  lemma Ends(f: Forest, y: AsyncOperation, z: AsyncOperation, error: Value)
    requires OneCallback(f, y, z, error) && z !in Below(f, y)
    ensures z != y && y.parent != y && z.parent != z && z.onCompleted == [] && z.onDone == []
    ensures y.onCancel == [] && y.onCompleted == [] && y.onDone == [CompleteIt(z, error)]
  {
    assert Hookless(z);
  }

  lemma ChildrenAreBelow(f: Forest, y: AsyncOperation, list: seq<AsyncOperation>)
    requires Rooted(f) && y in f && forall b :: b in list ==> b in f && b.parent == y
    ensures y !in Branches(f, list) && forall b :: b in list ==> y !in Below(f, b)
  {
    forall b | b in list ensures y !in Below(f, b) { assert y in b.above; }
  }

  // ---------------------------------------------------------------- who comes first

  lemma {:induction false} SameOrder(f: Forest, g: Forest, toY: seq<AsyncOperation>, toZ: seq<AsyncOperation>)
    requires f.Keys == g.Keys && (forall o :: o in f ==> g[o].expired == f[o].expired)
    requires forall o :: o in toY && o in f ==> g[o] == f[o]
    ensures ComesAfter(f, toY, toZ) == ComesAfter(g, toY, toZ)
    decreases |toY|
  {
    if |toY| > 1 && |toZ| > 1 && toY[0] in f {
      assert toY[0] in toY;
      SameLive(f, g, f[toY[0]].children);
      SameOrder(f, g, toY[1..], toZ[1..]);
    }
  }

  lemma {:induction false} SameLive(f: Forest, g: Forest, list: seq<AsyncOperation>)
    requires f.Keys == g.Keys && forall o :: o in f ==> g[o].expired == f[o].expired
    ensures Live(f, list) == Live(g, list)
  {
    if list != [] { SameLive(f, g, list[1..]); }
  }

  lemma SameExpired(f: Forest, g: Forest)
    requires Later(f, g)
    ensures f.Keys == g.Keys && forall o :: o in f ==> g[o].expired == f[o].expired
  {
  }

  lemma NotDroppedYet(f: Forest, z: AsyncOperation, c: AsyncOperation)
    requires Tidy(f) && z in f && c in f[z].children
    ensures f[z].dropped == {} && !f[z].view.cancelled
  {
  }

  /** The head itself is swept before anything else happens. */
  lemma HeadIsSwept(f: Forest, x: AsyncOperation, force: bool, c: AsyncOperation)
    requires Tidy(f) && x in f && c in f[x].children
    ensures Gone(AfterCancel(f, x, force), x, c)
  {
    NotDroppedYet(f, x, c);
    var m: Forest := f[x := Marked(f[x])];
    LaterUpdate(f, x, m[x]);
    assert Gone(m, x, c);
    hide AfterCancel, AfterCancelAll, AfterEnd, Live, Later, Gone, Marked;
    CancelUnfolds(f, x, force);
    var i := AfterCancelAll(m, Live(f, f[x].children));
    LaterKeys(m, i);
    GoneStays(m, i, x, c);
    GoneStays(i, AfterEnd(i, x, force), x, c);
  }

  /** The branches up to the one that holds z are cancelled before the callback can run. */
  lemma SweptInTime(f: Forest, x: AsyncOperation, force: bool, y: AsyncOperation, z: AsyncOperation, error: Value,
                    toZ: seq<AsyncOperation>, before: seq<AsyncOperation>, after: seq<AsyncOperation>, c: AsyncOperation)
    requires OneCallback(f, y, z, error) && LeadsTo(f, x, toZ, z) && |toZ| > 1 && c in f[z].children
    requires x in f && !f[x].view.cancelled && Live(f, f[x].children) == before + after && toZ[1] in before
    requires forall b :: b in before ==> b in f && y !in Below(f, b)
    ensures Gone(AfterCancel(f, x, force), z, c)
  {
    var m: Forest := f[x := Marked(f[x])];
    var i, j := AfterCancelAll(m, before), AfterCancelAll(AfterCancelAll(m, before), after);
    MarkKeepsPath(f, x, y, z, error, toZ);
    hide OneCallback, Below, Path, AfterCancel, AfterCancelAll, AfterEnd, Live, Later, Gone, Marked;
    QuietReaches(m, y, z, error, before, toZ[1..], c);
    CancelUnfolds(f, x, force);
    CancelAllSplits(m, before, after);
    GoneStays(i, j, z, c);
    LaterTransitive(m, i, j);
    LaterKeys(m, j);
    GoneStays(j, AfterEnd(j, x, force), z, c);
  }

  lemma MarkKeepsPath(f: Forest, x: AsyncOperation, y: AsyncOperation, z: AsyncOperation, error: Value, toZ: seq<AsyncOperation>)
    requires OneCallback(f, y, z, error) && LeadsTo(f, x, toZ, z) && |toZ| > 1 && x in f && !f[x].view.cancelled
    ensures var m: Forest := f[x := Marked(f[x])];
            && OneCallback(m, y, z, error) && Path(m, toZ[1..]) && toZ[1..][|toZ| - 2] == z && z in m && m[z] == f[z] && m.Keys == f.Keys
            && forall b :: Below(m, b) == Below(f, b)
  {
    var m: Forest := f[x := Marked(f[x])];
    FirstStep(f, x, toZ, z);
    forall o | o in toZ[1..] ensures o != x { }
    BelowSame(f, m);
    hide OneCallback, Below, Marked;
    MarkKeepsOne(f, x, y, z, error);
    PathSame(f, m, toZ[1..]);
    assert z in toZ[1..] by { assert toZ[|toZ| - 1] == toZ[1..][|toZ| - 2]; }
  }

  /** What the order of the branches decides, in any part of the tree. */
  ghost predicate Decided(f: Forest, g: Forest, toY: seq<AsyncOperation>, toZ: seq<AsyncOperation>, y: AsyncOperation, z: AsyncOperation, c: AsyncOperation) {
    && (!ComesAfter(f, toY, toZ) ==> Gone(g, z, c))
    && (ComesAfter(f, toY, toZ) && Fires(f, y, z) ==> z in g && c in g[z].dropped)
  }

  lemma {:induction false} OrderDecides(f: Forest, x: AsyncOperation, force: bool, y: AsyncOperation, z: AsyncOperation, error: Value,
                                        toY: seq<AsyncOperation>, toZ: seq<AsyncOperation>, c: AsyncOperation)
    requires OneCallback(f, y, z, error) && LeadsTo(f, x, toY, y) && LeadsTo(f, x, toZ, z) && c in f[z].children
    ensures Decided(f, AfterCancel(f, x, force), toY, toZ, y, z, c)
    decreases |toY|, 2
  {
    if |toZ| == 1 {
      HeadIsSwept(f, x, force, c);
    } else {
      FirstStep(f, x, toZ, z);
      LiveChildren(f, x);
      var list := Live(f, f[x].children);
      if |toY| == 1 {
        ChildrenAreBelow(f, y, list);
        assert list == list + [];
        SweptInTime(f, x, force, y, z, error, toZ, list, [], c);
      } else {
        FirstStep(f, x, toY, y);
        EitherComesFirst(f, x, force, y, z, error, toY, toZ, c);
      }
    }
  }

  lemma EitherComesFirst(f: Forest, x: AsyncOperation, force: bool, y: AsyncOperation, z: AsyncOperation, error: Value,
                         toY: seq<AsyncOperation>, toZ: seq<AsyncOperation>, c: AsyncOperation)
    requires OneCallback(f, y, z, error) && LeadsTo(f, x, toY, y) && LeadsTo(f, x, toZ, z) && c in f[z].children
    requires |toY| > 1 && |toZ| > 1
    ensures Decided(f, AfterCancel(f, x, force), toY, toZ, y, z, c)
    decreases |toY|, 1
  {
    var p, q := toY[1], toZ[1];
    var list := Live(f, f[x].children);
    FirstStep(f, x, toY, y);
    FirstStep(f, x, toZ, z);
    LiveChildren(f, x);
    if p == q {
      var before, after := FirstOf(list, p);
      SameBranch(f, x, force, y, z, error, toY, toZ, before, after, c);
    } else if Before(list, p, q) {
      var before, after := FirstOf(list, p);
      BeforeMeans(list, p, q, before, after);
      CallbackFirst(f, x, force, y, z, error, toY, toZ, before, after, c);
    } else {
      EitherBefore(list, p, q);
      var before, after := FirstOf(list, q);
      BeforeMeans(list, q, p, before, after);
      forall b | b in before + [q] ensures b in f && y !in Below(f, b) {
        assert b in list;
        SiblingsApart(f, p, b, y);
      }
      hide OneCallback, Below, Path, AfterCancel, Later, Gone;
      SweptInTime(f, x, force, y, z, error, toZ, before + [q], after, c);
    }
  }

  /** y and z are in the same branch: what counts is how they stand there. */
  lemma SameBranch(f: Forest, x: AsyncOperation, force: bool, y: AsyncOperation, z: AsyncOperation, error: Value,
                   toY: seq<AsyncOperation>, toZ: seq<AsyncOperation>, before: seq<AsyncOperation>, after: seq<AsyncOperation>, c: AsyncOperation)
    requires OneCallback(f, y, z, error) && LeadsTo(f, x, toY, y) && LeadsTo(f, x, toZ, z) && c in f[z].children
    requires |toY| > 1 && |toZ| > 1 && toY[1] == toZ[1] && toY[1] !in before
    requires x in f && Live(f, f[x].children) == before + [toY[1]] + after
    ensures Decided(f, AfterCancel(f, x, force), toY, toZ, y, z, c)
    decreases |toY|, 0
  {
    var p := toY[1];
    FirstStep(f, x, toY, y);
    FirstStep(f, x, toZ, z);
    LiveChildren(f, x);
    forall b | b in before ensures b in f && b.parent == x { assert b in Live(f, f[x].children); }
    forall o | o in toY[1..] || o in toZ[1..] ensures o !in Branches(f, before) && o != x { NotInBranches(f, x, p, before, o); }
    NotInBranches(f, x, p, before, y);
    assert y in toY[1..] by { assert toY[|toY| - 1] == toY[1..][|toY| - 2]; }
    assert z in toZ[1..] by { assert toZ[|toZ| - 1] == toZ[1..][|toZ| - 2]; }
    hide OneCallback, Below, Branches, Path, AfterCancel, Later, Gone;
    Descends(f, x, y, z, error, before);
    var i := AtBranch(f, x, before);
    PathSame(f, i, toY[1..]);
    PathSame(f, i, toZ[1..]);
    SameExpired(f, i);
    SameOrder(f, i, toY[1..], toZ[1..]);
    OrderDecides(i, p, false, y, z, error, toY[1..], toZ[1..], c);
    var j := AfterCancel(i, p, false);
    GoesOn(f, x, force, before, p, after);
    if ComesAfter(f, toY, toZ) {
      if Fires(f, y, z) { DroppedStays(j, AfterCancel(f, x, force), z, c); }
    } else {
      GoneStays(j, AfterCancel(f, x, force), z, c);
    }
  }

  /** The branch of y has its turn, and the callback finds z as it was. */
  lemma CallbackFirst(f: Forest, x: AsyncOperation, force: bool, y: AsyncOperation, z: AsyncOperation, error: Value,
                      toY: seq<AsyncOperation>, toZ: seq<AsyncOperation>, before: seq<AsyncOperation>, after: seq<AsyncOperation>, c: AsyncOperation)
    requires OneCallback(f, y, z, error) && LeadsTo(f, x, toY, y) && LeadsTo(f, x, toZ, z) && c in f[z].children
    requires |toY| > 1 && |toZ| > 1 && toY[1] != toZ[1] && toY[1] !in before && toZ[1] !in before
    requires x in f && Live(f, f[x].children) == before + [toY[1]] + after && ComesAfter(f, toY, toZ)
    ensures Decided(f, AfterCancel(f, x, force), toY, toZ, y, z, c)
  {
    var p, q := toY[1], toZ[1];
    FirstStep(f, x, toY, y);
    FirstStep(f, x, toZ, z);
    LiveChildren(f, x);
    forall b | b in before ensures b in f && b.parent == x { assert b in Live(f, f[x].children); }
    forall o | o in toY[1..] ensures o !in Branches(f, before) && o != x { NotInBranches(f, x, p, before, o); }
    NotInBranches(f, x, p, before, y);
    NotInBranches(f, x, q, before, z);
    SiblingsApart(f, q, p, z);
    assert y in toY[1..] by { assert toY[|toY| - 1] == toY[1..][|toY| - 2]; }
    hide OneCallback, Below, Branches, Path, AfterCancel, Later, Gone, ComesAfter;
    Descends(f, x, y, z, error, before);
    var i := AtBranch(f, x, before);
    PathSame(f, i, toY[1..]);
    BelowSame(f, i);
    GoesOn(f, x, force, before, p, after);
    if Fires(f, y, z) {
      BranchDiscards(i, p, y, z, error, toY[1..], c);
      DroppedStays(AfterCancel(i, p, false), AfterCancel(f, x, force), z, c);
    }
  }

  // ---------------------------------------------------------------- a callback that cannot fire

  /** The hooks of OneCallback, of which nothing but y's callback can do anything. */
  ghost predicate Mute(f: Forest, y: AsyncOperation, z: AsyncOperation, error: Value) {
    && y in f && z in f && y != z && (forall o :: o in f ==> o.parent != o)
    && y.onCancel == [] && y.onCompleted == [] && y.onDone == [CompleteIt(z, error)]
    && forall o :: o in f && o != y ==> Hookless(o)
  }

  ghost predicate Idle(a: Shot, b: Shot, y: AsyncOperation) {
    a.view.life != Started || !a.callback || y.skip || b.view.life != Started
  }

  /** The callback of y is not going to run, or finds z not started. */
  ghost predicate Blocked(f: Forest, y: AsyncOperation, z: AsyncOperation) {
    y in f && z in f && (f[y].view.cancelled || Idle(f[y], f[z], y))
  }

  lemma BlockedStays(f: Forest, g: Forest, y: AsyncOperation, z: AsyncOperation)
    requires Evolved(f, g) && Blocked(f, y, z)
    ensures Blocked(g, y, z) && (Idle(f[y], f[z], y) ==> Idle(g[y], g[z], y))
  {
    LaterAt(f, g, y);
    LaterAt(f, g, z);
    EvolvedAt(f, g, null, y);
    EvolvedAt(f, g, null, z);
  }

  lemma EvolvedIsLater(f: Forest, g: Forest)
    requires Evolved(f, g)
    ensures Later(f, g) && f.Keys == g.Keys
  {
  }

  /** A callback that finds z not started has no effect. */
  lemma FiresInVain(f: Forest, y: AsyncOperation, z: AsyncOperation, error: Value)
    requires y in f && f[y].view.life == Completing && f[y].callback && y.onCompleted == [] && y.onDone == [CompleteIt(z, error)]
    requires z in f && z != y && f[z].view.life != Started
    ensures var k: Forest := f[y := CalledBack(f[y])];
            Stage(k[y].view.life) >= 3 && AfterFinish(f, y, OPERATION_CANCELED) == AfterCleanup(k, y)
  {
    var k: Forest := f[y := CalledBack(f[y])];
    assert Stage(k[y].view.life) >= 3;
    hide AfterFinish, AfterHook, AfterCleanup, AfterTryComplete, Later;
    FinishComesToCallback(f, y, CalledBack(f[y]));
    HookOfOne(k, z, error);
    TryCompleteUnfolds(k, z, error);
  }

  lemma FinishesWithout(f: Forest, x: AsyncOperation)
    requires x in f && f[x].view.life == Completing && !f[x].callback && x.onCompleted == []
    ensures var k: Forest := f[x := Fired(f[x], OPERATION_CANCELED)];
            Stage(k[x].view.life) >= 3 && AfterFinish(f, x, OPERATION_CANCELED) == AfterCleanup(k, x)
  {
    var d := f[x].(view := f[x].view.(life := Completed), error := OPERATION_CANCELED);
    assert d == Fired(f[x], OPERATION_CANCELED);
    hide AfterFinish, AfterHook, AfterCallback, AfterCleanup, Later, Fired;
    FinishesPlainly(f, x, OPERATION_CANCELED);
    CallbackUnfolds(f[x := d], x);
  }

  lemma FiredIs(a: Shot)
    ensures a.callback ==> CalledBack(a) == Fired(a, OPERATION_CANCELED)
    ensures Stage(Fired(a, OPERATION_CANCELED).view.life) >= 3
    ensures Fired(a, OPERATION_CANCELED).children == a.children && Fired(a, OPERATION_CANCELED).dropped == a.dropped
  {
  }

  lemma FinishesIdly(f: Forest, x: AsyncOperation, y: AsyncOperation, z: AsyncOperation, error: Value)
    requires Mute(f, y, z, error) && x in f && f[x].view.life == Completing
    requires x == y && f[y].callback ==> f[z].view.life != Started
    ensures var k: Forest := f[x := Fired(f[x], OPERATION_CANCELED)];
            Stage(k[x].view.life) >= 3 && AfterFinish(f, x, OPERATION_CANCELED) == AfterCleanup(k, x)
  {
    HooksOf(f, x, y, z, error);
    FiredIs(f[x]);
    hide *;
    if x != y {
      FinishesQuietly(f, x, OPERATION_CANCELED);
    } else if f[x].callback {
      FiresInVain(f, y, z, error);
    } else {
      FinishesWithout(f, x);
    }
  }

  lemma CleansIdly(f: Forest, x: AsyncOperation)
    requires x in f && f[x].children == [] && x.parent != x && Stage(Fired(f[x], OPERATION_CANCELED).view.life) >= 3
    ensures Spares(f, AfterCleanup(f[x := Fired(f[x], OPERATION_CANCELED)], x), f.Keys)
  {
    FiredIs(f[x]);
    hide AfterCleanup, Fired;
    CleansPlainly(f[x := Fired(f[x], OPERATION_CANCELED)], x);
  }

  /** Completing a swept operation without a callback that does anything. */
  lemma FinishDropsNothing(f: Forest, x: AsyncOperation, y: AsyncOperation, z: AsyncOperation, error: Value)
    requires Mute(f, y, z, error) && x in f && f[x].view.life == Completing && f[x].children == []
    requires x == y && f[y].callback ==> f[z].view.life != Started
    ensures Spares(f, AfterFinish(f, x, OPERATION_CANCELED), f.Keys)
  {
    hide *;
    HooksOf(f, x, y, z, error);
    FinishesIdly(f, x, y, z, error);
    CleansIdly(f, x);
  }

  lemma HooksOf(f: Forest, x: AsyncOperation, y: AsyncOperation, z: AsyncOperation, error: Value)
    requires Mute(f, y, z, error) && x in f
    ensures x.parent != x && x.onCancel == [] && x.onCompleted == [] && x.onDone == if x == y then [CompleteIt(z, error)] else []
    ensures z in f && y in f && z != y
  {
    assert x != y ==> Hookless(x);
  }

  lemma EndsIdly(f: Forest, x: AsyncOperation, force: bool, h: Forest)
    requires x in f && x.onCancel == [] && h == f[x := Claimed(f[x])] && (f[x].view.life == Started ==> x in h && Stage(h[x].view.life) >= 2)
    ensures AfterEnd(f, x, force) == f
            || (f[x].view.life == Started && (force || !x.skip) && AfterEnd(f, x, force) == AfterFinish(h, x, OPERATION_CANCELED))
  {
    hide *;
    EndUnfolds(f, x, force);
    HookUnfolds(f, []);
    HookUnfolds(h, []);
  }

  lemma ClaimDropsNothing(f: Forest, x: AsyncOperation, y: AsyncOperation, z: AsyncOperation, error: Value)
    requires Mute(f, y, z, error) && x in f && f[x].children == [] && f[x].view.life == Started
    ensures var h: Forest := f[x := Claimed(f[x])];
            && Spares(f, h, f.Keys) && Mute(h, y, z, error) && h.Keys == f.Keys
            && h[x].view.life == Completing && Stage(h[x].view.life) >= 2 && h[x].children == [] && h[x].callback == f[x].callback && (z != x ==> h[z] == f[z])
  {
    ClaimedIs(f[x]);
    hide Claimed, Hookless;
  }

  lemma EndDropsNothing(f: Forest, x: AsyncOperation, force: bool, y: AsyncOperation, z: AsyncOperation, error: Value)
    requires Mute(f, y, z, error) && x in f && f[x].children == []
    requires x == y ==> y in f && z in f && !force && Idle(f[y], f[z], y)
    ensures Spares(f, AfterEnd(f, x, force), f.Keys)
  {
    assert x == y && f[x].view.life == Started && (force || !x.skip) && f[x].callback ==> f[z].view.life != Started;
    var h: Forest := f[x := Claimed(f[x])];
    hide *;
    HooksOf(f, x, y, z, error);
    if f[x].view.life == Started { ClaimDropsNothing(f, x, y, z, error); }
    EndsIdly(f, x, force, h);
    SparesReflexive(f, f.Keys);
    if AfterEnd(f, x, force) != f {
      FinishDropsNothing(h, x, y, z, error);
      SparesTransitive(f, h, AfterFinish(h, x, OPERATION_CANCELED), f.Keys);
    }
  }

  lemma StaysMute(f: Forest, g: Forest, y: AsyncOperation, z: AsyncOperation, error: Value)
    requires Mute(f, y, z, error) && f.Keys == g.Keys
    ensures Mute(g, y, z, error) && z in f && y in f && z != y
  {
  }

  lemma CancelDropsNothing(f: Forest, x: AsyncOperation, force: bool, y: AsyncOperation, z: AsyncOperation, error: Value)
    requires Ok(f) && Mute(f, y, z, error) && Blocked(f, y, z) && (x == y ==> !force)
    ensures Spares(f, AfterCancel(f, x, force), f.Keys)
    decreases Potential(f), 0
  {
    hide *;
    if x in f { CancelUnfolds(f, x, force); } else { NothingToCancel(f, x, force); }
    SparesReflexive(f, f.Keys);
    if x in f && !f[x].view.cancelled {
      var h: Forest := f[x := Marked(f[x])];
      var found := Live(f, f[x].children);
      MarkSteps(f, x);
      MarkSpares(f, x, f.Keys);
      StaysMute(f, h, y, z, error);
      MarkBlocks(f, x, y, z);
      CancelAllDropsNothing(h, found, y, z, error);
      var i := AfterCancelAll(h, found);
      CancelAllEvolves(h, found);
      EvolvedIsLater(h, i);
      LaterAt(h, i, x);
      BlockedStays(h, i, y, z);
      StaysMute(h, i, y, z, error);
      EndDropsNothing(i, x, force, y, z, error);
      SparesTransitive(f, h, i, f.Keys);
      SparesTransitive(f, i, AfterEnd(i, x, force), f.Keys);
    }
  }

  lemma MarkBlocks(f: Forest, x: AsyncOperation, y: AsyncOperation, z: AsyncOperation)
    requires x in f && !f[x].view.cancelled && Blocked(f, y, z)
    ensures var h: Forest := f[x := Marked(f[x])]; Blocked(h, y, z) && y in h && z in h && (x == y ==> Idle(h[y], h[z], y))
  {
  }

  lemma CancelAllDropsNothing(f: Forest, found: seq<AsyncOperation>, y: AsyncOperation, z: AsyncOperation, error: Value)
    requires Ok(f) && Mute(f, y, z, error) && Blocked(f, y, z)
    ensures Spares(f, AfterCancelAll(f, found), f.Keys)
    decreases Potential(f), 1, |found|
  {
    hide *;
    CancelAllUnfolds(f, found);
    SparesReflexive(f, f.Keys);
    if found != [] {
      var h := AfterCancel(f, found[0], false);
      CancelDropsNothing(f, found[0], false, y, z, error);
      CancelEvolves(f, found[0], false);
      EvolvedIsLater(f, h);
      OkLater(f, h);
      StaysMute(f, h, y, z, error);
      BlockedStays(f, h, y, z);
      LaterShrinks(f, h, null);
      CancelAllDropsNothing(h, found[1..], y, z, error);
      SparesTransitive(f, h, AfterCancelAll(h, found[1..]), f.Keys);
    }
  }

  // ---------------------------------------------------------------- the exact condition

  /** A live child that has still to be cancelled or completed. */
  ghost predicate Waiting(f: Forest, z: AsyncOperation, c: AsyncOperation) {
    z in f && c in f[z].children && c in f && !f[c].expired && !Settled(f[c])
  }

  lemma WaitingIsUnnamed(f: Forest, h: AsyncOperation, y: AsyncOperation, z: AsyncOperation, error: Value, c: AsyncOperation)
    requires OneCallback(f, y, z, error) && Waiting(f, z, c) && z in Below(f, h)
    ensures Unnamed(f, z, c) && c != h
  {
    hide Ok, Quiescent;
    assert c.parent == z && c != z;
    forall o | o in f ensures !Names(o.onCancel, c) && !Names(o.onCompleted, c) && !Names(o.onDone, c) {
      if o != y { assert Hookless(o); }
    }
  }

  /** Where the paths part, so do the operations they lead to. */
  lemma {:induction false} PartedDiffer(f: Forest, x: AsyncOperation, y: AsyncOperation, z: AsyncOperation,
                                        toY: seq<AsyncOperation>, toZ: seq<AsyncOperation>)
    requires Ok(f) && Tidy(f) && Rooted(f) && LeadsTo(f, x, toY, y) && LeadsTo(f, x, toZ, z) && ComesAfter(f, toY, toZ)
    ensures y != z && y != x
    decreases |toY|
  {
    FirstStep(f, x, toY, y);
    FirstStep(f, x, toZ, z);
    if toY[1] == toZ[1] {
      PartedDiffer(f, toY[1], y, z, toY[1..], toZ[1..]);
    } else {
      SiblingsApart(f, toY[1], toZ[1], y);
    }
  }

  lemma IsMute(f: Forest, y: AsyncOperation, z: AsyncOperation, error: Value)
    requires OneCallback(f, y, z, error) && y != z
    ensures Mute(f, y, z, error) && (Fires(f, y, z) || Blocked(f, y, z))
  {
    forall o | o in f ensures o.parent != o { assert o !in o.above; }
  }

  lemma NothingFires(f: Forest, h: AsyncOperation, force: bool, y: AsyncOperation, z: AsyncOperation, error: Value,
                     toY: seq<AsyncOperation>, toZ: seq<AsyncOperation>)
    requires OneCallback(f, y, z, error) && !Fires(f, y, z) && ComesAfter(f, toY, toZ) && LeadsTo(f, h, toY, y) && LeadsTo(f, h, toZ, z)
    ensures Spares(f, AfterCancel(f, h, force), f.Keys)
  {
    hide *;
    Means(f, y, z, error);
    PartedDiffer(f, h, y, z, toY, toZ);
    IsMute(f, y, z, error);
    CancelDropsNothing(f, h, force, y, z, error);
  }

  lemma NothingDropped(f: Forest, h: AsyncOperation, force: bool, path: seq<AsyncOperation>)
    requires Ok(f) && Tidy(f) && Quiescent(f) && PathFrom(f, h, path) && Spares(f, AfterCancel(f, h, force), f.Keys)
    ensures forall o :: o in path ==> Reached(o, f, AfterCancel(f, h, force))
  {
    var g := AfterCancel(f, h, force);
    hide Ok, Tidy, Quiescent, EvolvedBut, Path, Undropped, Reached, AfterCancel, Spares;
    PathStarts(f, h, path);
    PathInside(f, path);
    SparedIsUndropped(f, g, f.Keys, path);
    CancelKeeps(f, h, force);
    CancelReaches(f, g, path);
  }

  /** The callback of y fires before z is swept. */
  ghost predicate TooLate(f: Forest, y: AsyncOperation, z: AsyncOperation, toY: seq<AsyncOperation>, toZ: seq<AsyncOperation>) {
    Fires(f, y, z) && ComesAfter(f, toY, toZ)
  }

  /** One callback, anywhere below h, completes one operation, anywhere below h: the
      live children of that operation which are still to be cancelled are missed if
      and only if the callback is going to fire and the branch of the operation comes
      after that of the callback, where the paths to the two part. So they are reached
      when it is the callback's own operation, above it, below it, or in a branch that
      comes earlier. */
  lemma OrderIsExact(f: Forest, h: AsyncOperation, force: bool, y: AsyncOperation, z: AsyncOperation, error: Value,
                     toY: seq<AsyncOperation>, toZ: seq<AsyncOperation>, c: AsyncOperation)
    requires OneCallback(f, y, z, error) && LeadsTo(f, h, toY, y) && LeadsTo(f, h, toZ, z) && Waiting(f, z, c)
    ensures c in AfterCancel(f, h, force) && (Settled(AfterCancel(f, h, force)[c]) <==> !TooLate(f, y, z, toY, toZ))
    ensures TooLate(f, y, z, toY, toZ) ==> AfterCancel(f, h, force)[c].view == f[c].view
  {
    PathEnds(f, h, toZ, z);
    WaitingIsUnnamed(f, h, y, z, error, c);
    if ComesAfter(f, toY, toZ) && !Fires(f, y, z) {
      ReachedAnyway(f, h, force, y, z, error, toY, toZ, c);
    } else {
      hide OneCallback, Fires, Path, Below, ComesAfter;
      OrderDecides(f, h, force, y, z, error, toY, toZ, c);
      ReachedUnlessDiscarded(f, h, force, z, c);
    }
  }

  lemma ReachedAnyway(f: Forest, h: AsyncOperation, force: bool, y: AsyncOperation, z: AsyncOperation, error: Value,
                      toY: seq<AsyncOperation>, toZ: seq<AsyncOperation>, c: AsyncOperation)
    requires OneCallback(f, y, z, error) && !Fires(f, y, z) && ComesAfter(f, toY, toZ) && LeadsTo(f, h, toY, y) && LeadsTo(f, h, toZ, z)
    requires Waiting(f, z, c)
    ensures c in AfterCancel(f, h, force) && Settled(AfterCancel(f, h, force)[c])
  {
    PathGrows(f, toZ, c);
    hide OneCallback, Fires, AfterCancel, Path, Waiting, ComesAfter, Reached, Settled, Ok, Tidy, Quiescent, Rooted, Spares;
    Means(f, y, z, error);
    NothingFires(f, h, force, y, z, error, toY, toZ);
    NothingDropped(f, h, force, toZ + [c]);
    assert c in toZ + [c];
    ReachedIsSettled(f, AfterCancel(f, h, force), c);
  }

  lemma PathEnds(f: Forest, h: AsyncOperation, path: seq<AsyncOperation>, z: AsyncOperation)
    requires Rooted(f) && LeadsTo(f, h, path, z)
    ensures h in f && z in Below(f, h)
  {
    PathBelow(f, h, path);
    assert z in path;
  }

  /** No Cleanup but that of z finds a child to discard. */
  lemma OthersDropNothing(f: Forest, h: AsyncOperation, force: bool, y: AsyncOperation, z: AsyncOperation, error: Value)
    requires OneCallback(f, y, z, error) && h in f
    ensures Spares(f, AfterCancel(f, h, force), f.Keys - {z})
  {
    var kept, need := f.Keys - {z}, NoNeed(f);
    forall o | o in f ensures Obeys(o.onCancel, o, kept, need) && Obeys(o.onCompleted, o, kept, need) && Obeys(o.onDone, o, kept, need) {
      if o != y { assert Hookless(o); }
    }
    forall o, c | o in f && c in f[o].children ensures c in need { OkMeans(f, o); }
    CancelSpares(f, h, force, kept, need);
  }

  /** What is settled, or not discarded, is settled when the cancel is over. */
  lemma SettledBelow(f: Forest, g: Forest, o: AsyncOperation, c: AsyncOperation)
    requires Evolved(f, g) && Tidy(g) && Quiescent(g) && o in g && Settled(g[o])
    requires o in f && c in f && c in f[o].children && !f[c].expired && (Settled(f[c]) || c !in g[o].dropped)
    ensures c in g && Settled(g[c])
  {
    if Settled(f[c]) { LaterAt(f, g, c); } else { ChildIsSettled(f, g, o, c); }
  }

  lemma {:induction false} PathSettles(f: Forest, g: Forest, y: AsyncOperation, z: AsyncOperation, error: Value, path: seq<AsyncOperation>)
    requires OneCallback(f, y, z, error) && Evolved(f, g) && Tidy(g) && Quiescent(g) && Spares(f, g, f.Keys - {z})
    requires forall c :: Waiting(f, z, c) ==> z in g && c !in g[z].dropped
    requires Path(f, path) && path[0] in g && Settled(g[path[0]])
    ensures forall o :: o in path ==> Reached(o, f, g)
    decreases |path|
  {
    hide OneCallback, EvolvedBut, Settled, Reached, Tidy, Quiescent;
    SettledIsReached(f, g, path[0]);
    if |path| > 1 {
      assert Tidy(f) by { Means(f, y, z, error); }
      NotDroppedYet(f, path[0], path[1]);
      SettledBelow(f, g, path[0], path[1]);
      PathSettles(f, g, y, z, error, path[1..]);
    }
  }

  lemma {:induction false} PathGrows(f: Forest, path: seq<AsyncOperation>, c: AsyncOperation)
    requires Path(f, path) && Waiting(f, path[|path| - 1], c)
    ensures Path(f, path + [c])
    decreases |path|
  {
    assert Path(f, [c]);
    if |path| == 1 {
      assert (path + [c])[1..] == [c];
    } else {
      PathGrows(f, path[1..], c);
      assert (path + [c])[1..] == path[1..] + [c];
    }
  }

  /** And of the whole: a recursive cancel reaches every live descendant of h if and
      only if the callback does not come too early, or finds no child that is still
      to be cancelled. */
  lemma ReachesAllExactly(f: Forest, h: AsyncOperation, force: bool, y: AsyncOperation, z: AsyncOperation, error: Value,
                          toY: seq<AsyncOperation>, toZ: seq<AsyncOperation>)
    requires OneCallback(f, y, z, error) && LeadsTo(f, h, toY, y) && LeadsTo(f, h, toZ, z)
    ensures (forall path: seq<AsyncOperation> :: PathFrom(f, h, path) ==> forall o :: o in path ==> Reached(o, f, AfterCancel(f, h, force)))
            <==> !TooLate(f, y, z, toY, toZ) || forall c :: !Waiting(f, z, c)
  {
    hide *;
    if !TooLate(f, y, z, toY, toZ) || forall c :: !Waiting(f, z, c) {
      forall path: seq<AsyncOperation> | PathFrom(f, h, path) ensures forall o :: o in path ==> Reached(o, f, AfterCancel(f, h, force)) {
        SparedReaches(f, h, force, y, z, error, toY, toZ, path);
      }
    } else {
      var c :| Waiting(f, z, c);
      MissesOne(f, h, force, y, z, error, toY, toZ, c);
      assert c in toZ + [c];
    }
  }

  lemma MissesOne(f: Forest, h: AsyncOperation, force: bool, y: AsyncOperation, z: AsyncOperation, error: Value,
                  toY: seq<AsyncOperation>, toZ: seq<AsyncOperation>, c: AsyncOperation)
    requires OneCallback(f, y, z, error) && LeadsTo(f, h, toY, y) && LeadsTo(f, h, toZ, z)
    requires TooLate(f, y, z, toY, toZ) && Waiting(f, z, c)
    ensures PathFrom(f, h, toZ + [c]) && !Reached(c, f, AfterCancel(f, h, force))
  {
    PathGrows(f, toZ, c);
    hide OneCallback, TooLate, AfterCancel, Path, Waiting, Reached, Settled;
    OrderIsExact(f, h, force, y, z, error, toY, toZ, c);
    ReachedIsSettled(f, AfterCancel(f, h, force), c);
  }

  lemma ReachedIsSettled(f: Forest, g: Forest, c: AsyncOperation)
    ensures Reached(c, f, g) ==> c in g && Settled(g[c])
  {
  }

  lemma SparedReaches(f: Forest, h: AsyncOperation, force: bool, y: AsyncOperation, z: AsyncOperation, error: Value,
                      toY: seq<AsyncOperation>, toZ: seq<AsyncOperation>, path: seq<AsyncOperation>)
    requires OneCallback(f, y, z, error) && LeadsTo(f, h, toY, y) && LeadsTo(f, h, toZ, z) && PathFrom(f, h, path)
    requires !TooLate(f, y, z, toY, toZ) || forall c :: !Waiting(f, z, c)
    ensures forall o :: o in path ==> Reached(o, f, AfterCancel(f, h, force))
  {
    var g := AfterCancel(f, h, force);
    Means(f, y, z, error);
    PathEnds(f, h, toZ, z);
    hide OneCallback, AfterCancel, Path, Reached, Below, ComesAfter, Fires, Ok, Tidy, Quiescent, Rooted, EvolvedBut, Settled, Spares;
    if ComesAfter(f, toY, toZ) && !Fires(f, y, z) {
      NothingFires(f, h, force, y, z, error, toY, toZ);
      NothingDropped(f, h, force, path);
    } else {
      PathStarts(f, h, path);
      CancelKeeps(f, h, force);
      OthersDropNothing(f, h, force, y, z, error);
      forall c | Waiting(f, z, c) ensures z in g && c !in g[z].dropped {
        OrderDecides(f, h, force, y, z, error, toY, toZ, c);
      }
      PathSettles(f, g, y, z, error, path);
    }
  }
}
