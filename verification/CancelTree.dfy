/** A forest of asynchronous operations, run by one thread: recursive cancellation,
    completion and clean-up, with user hooks that call back into any operation of
    the forest. What each method does to the forest is a function; the methods of
    the class are proved to compute it, and the properties are proved about it. */
module CancelTree {
  import opened LifecycleWord
  import opened ErrorCodes

  /** What user code does when it is called. */
  datatype Action = CompleteIt(target: AsyncOperation, error: Value) | CancelIt(target: AsyncOperation, force: bool)

  /** The state of one operation, as a value. `dropped` are the children that
      Cleanup discarded, `fired` counts the calls of the completion callback. */
  datatype Shot = Shot(view: View, error: Value, callback: bool, children: seq<AsyncOperation>, expired: bool,
                       dropped: set<AsyncOperation>, fired: nat)

  type Forest = map<AsyncOperation, Shot>

  ghost function Take(all: set<AsyncOperation>): (f: Forest)
    reads all
    ensures f.Keys == all
  {
    map o | o in all :: o.Shoot()
  }

  // ---------------------------------------------------------------- forests

  ghost predicate Targets(actions: seq<Action>, f: Forest) {
    forall i :: 0 <= i < |actions| ==> actions[i].target in f
  }

  /** Links and hooks stay inside the forest. */
  ghost predicate Ok(f: Forest) {
    forall o :: o in f ==>
      && (o.parent != null ==> o.parent in f)
      && (forall c :: c in f[o].children ==> c in f)
      && Targets(o.onStart, f) && Targets(o.onCancel, f) && Targets(o.onCompleted, f) && Targets(o.onDone, f)
  }

  /** A cancelled operation has been swept, and only Cleanup discards children. */
  ghost predicate Tidy(f: Forest) {
    forall o :: o in f ==>
      && (f[o].view.cancelled ==> f[o].children == [])
      && (f[o].dropped == {} || (Stage(f[o].view.life) >= 3 && f[o].children == []))
  }

  /** No completion is under way. */
  ghost predicate Quiescent(f: Forest) {
    forall o :: o in f && Stage(f[o].view.life) >= 2 ==> Stage(f[o].view.life) >= 3 && f[o].children == []
  }

  /** What no call undoes. */
  ghost predicate LaterShot(a: Shot, b: Shot) {
    && Precedes(a.view, b.view) && b.expired == a.expired && a.dropped <= b.dropped
    && (forall c :: c in b.children ==> c in a.children)
    && (forall c :: c in b.dropped ==> c in a.dropped || c in a.children)
    && (b.view.cancelled && !a.view.cancelled ==> b.children == [])
    && (b.dropped != a.dropped ==> Stage(b.view.life) >= 3 && b.children == [])
  }

  ghost predicate Later(f: Forest, g: Forest) {
    f.Keys == g.Keys && forall o :: o in f ==> LaterShot(f[o], g[o])
  }

  lemma NoneLeft(a: seq<AsyncOperation>, b: seq<AsyncOperation>)
    requires forall c :: c in b ==> c in a
    ensures a == [] ==> b == []
  {
    if b != [] { assert b[0] in b; }
  }

  lemma LaterShotTransitive(a: Shot, b: Shot, c: Shot)
    requires LaterShot(a, b) && LaterShot(b, c)
    ensures LaterShot(a, c)
  {
    NoneLeft(b.children, c.children);
  }

  lemma LaterTransitive(f: Forest, g: Forest, h: Forest)
    requires Later(f, g) && Later(g, h)
    ensures Later(f, h)
  {
    hide LaterShot;
    forall o | o in f ensures LaterShot(f[o], h[o]) { LaterShotTransitive(f[o], g[o], h[o]); }
  }

  lemma LaterReflexive(f: Forest)
    ensures Later(f, f)
  {
  }

  lemma LaterUpdate(f: Forest, x: AsyncOperation, b: Shot)
    requires x in f && LaterShot(f[x], b)
    ensures Later(f, f[x := b])
  {
  }

  lemma LaterAt(f: Forest, g: Forest, x: AsyncOperation)
    requires Later(f, g) && x in f
    ensures x in g && LaterShot(f[x], g[x]) && Precedes(f[x].view, g[x].view) && (f[x].children == [] ==> g[x].children == [])
  {
    assert LaterShot(f[x], g[x]);
    NoneLeft(f[x].children, g[x].children);
  }

  lemma OkLater(f: Forest, g: Forest)
    requires Ok(f) && Later(f, g)
    ensures Ok(g)
  {
  }

  lemma TidyLater(f: Forest, g: Forest)
    requires Tidy(f) && Later(f, g)
    ensures Tidy(g)
  {
    forall o | o in g && f[o].children == [] ensures g[o].children == [] {
      assert LaterShot(f[o], g[o]);
      NoneLeft(f[o].children, g[o].children);
    }
    forall o | o in g
      ensures (g[o].view.cancelled ==> g[o].children == []) && (g[o].dropped == {} || (Stage(g[o].view.life) >= 3 && g[o].children == []))
    {
      assert LaterShot(f[o], g[o]);
    }
  }

  // ---------------------------------------------------------------- termination

  /** How many marks and completions are still possible. */
  ghost function Potential(f: Forest): nat {
    |set o | o in f && !f[o].view.cancelled| + |set o | o in f && Stage(f[o].view.life) < 2|
  }

  lemma SubsetSize<T>(a: set<T>, b: set<T>)
    requires a <= b
    ensures |a| <= |b| && (a != b ==> |a| < |b|)
  {
    assert b == a + (b - a);
    if a != b { assert |b - a| > 0; }
  }

  lemma PotentialShrinks(f: Forest, g: Forest, x: AsyncOperation?)
    requires f.Keys == g.Keys && forall o :: o in f ==> Precedes(f[o].view, g[o].view)
    ensures Potential(g) <= Potential(f)
    ensures x != null && x in f && (f[x].view.cancelled != g[x].view.cancelled || (Stage(f[x].view.life) < 2 <= Stage(g[x].view.life))) ==>
              Potential(g) < Potential(f)
  {
    var a, b := (set o | o in g && !g[o].view.cancelled), (set o | o in f && !f[o].view.cancelled);
    var c, d := (set o | o in g && Stage(g[o].view.life) < 2), (set o | o in f && Stage(f[o].view.life) < 2);
    SubsetSize(a, b);
    SubsetSize(c, d);
    if x != null && x in f {
      var y: AsyncOperation := x;
      if f[y].view.cancelled != g[y].view.cancelled { assert y in b && y !in a; }
      if Stage(f[y].view.life) < 2 <= Stage(g[y].view.life) { assert y in d && y !in c; }
    }
  }

  lemma LaterShrinks(f: Forest, g: Forest, x: AsyncOperation?)
    requires Later(f, g)
    ensures Potential(g) <= Potential(f)
    ensures x != null && x in f && (f[x].view.cancelled != g[x].view.cancelled || (Stage(f[x].view.life) < 2 <= Stage(g[x].view.life))) ==>
              Potential(g) < Potential(f)
  {
    hide Potential;
    PotentialShrinks(f, g, x);
  }

  // ---------------------------------------------------------------- what the methods compute

  function Claimed(a: Shot): Shot {
    a.(view := Atomic(BeginComplete, a.view).view)
  }

  function Published(a: Shot, error: Value): Shot {
    a.(error := error, view := Atomic(Complete, a.view).view)
  }

  function Marked(a: Shot): Shot {
    a.(view := Atomic(RequestCancel, a.view).view, children := [])
  }

  ghost function Dropped(a: Shot): Shot {
    a.(dropped := a.dropped + (set c | c in a.children), children := [])
  }

  ghost predicate Expired(f: Forest, c: AsyncOperation) {
    c in f && f[c].expired
  }

  /** The children that a sweep takes along. */
  ghost function Live(f: Forest, list: seq<AsyncOperation>): (r: seq<AsyncOperation>)
    ensures forall c :: c in r ==> c in list && !Expired(f, c)
    ensures forall c :: c in list && !Expired(f, c) ==> c in r
  {
    if list == [] then []
    else if Expired(f, list[0]) then Live(f, list[1..])
    else [list[0]] + Live(f, list[1..])
  }

  /** remove_if: the child itself and every entry that has expired. */
  ghost function Remaining(f: Forest, list: seq<AsyncOperation>, child: AsyncOperation): (r: seq<AsyncOperation>)
    ensures forall c :: c in r ==> c in list && c != child && !Expired(f, c)
    ensures forall c :: c in list && c != child && !Expired(f, c) ==> c in r
  {
    if list == [] then []
    else if list[0] == child || Expired(f, list[0]) then Remaining(f, list[1..], child)
    else [list[0]] + Remaining(f, list[1..], child)
  }

  ghost function Detached(f: Forest, child: AsyncOperation): Forest {
    if child.parent == null || child.parent !in f then f
    else f[child.parent := f[child.parent].(children := Remaining(f, f[child.parent].children, child))]
  }

  ghost function AfterAction(f: Forest, a: Action): (g: Forest)
    ensures Later(f, g)
    decreases Potential(f), 1, 0
  {
    match a
    case CompleteIt(target, error) => AfterTryComplete(f, target, error)
    case CancelIt(target, force) => AfterCancel(f, target, force)
  }

  /** A hook: one action after the other. */
  ghost function AfterHook(f: Forest, actions: seq<Action>): (g: Forest)
    ensures Later(f, g)
    decreases Potential(f), 2, |actions|
  {
    hide Potential, LaterShot;
    LaterReflexive(f);
    if actions == [] then f
    else
      var h := AfterAction(f, actions[0]);
      LaterShrinks(f, h, null);
      var g := AfterHook(h, actions[1..]);
      LaterTransitive(f, h, g);
      g
  }

  ghost function AfterTryComplete(f: Forest, x: AsyncOperation, error: Value): (g: Forest)
    ensures Later(f, g)
    decreases Potential(f), 0, 0
  {
    LaterReflexive(f);
    hide Potential;
    if x !in f || f[x].view.life != Started then f
    else
      var h := f[x := Claimed(f[x])];
      LaterUpdate(f, x, h[x]);
      LaterShrinks(f, h, x);
      var g := AfterFinish(h, x, error);
      LaterTransitive(f, h, g);
      g
  }

  /** FinishComplete: the error, OnCompleted, the callback and Cleanup. */
  ghost function AfterFinish(f: Forest, x: AsyncOperation, error: Value): (g: Forest)
    requires x in f && Stage(f[x].view.life) >= 2
    ensures Later(f, g)
    decreases Potential(f), 4, 0
  {
    var h := f[x := Published(f[x], error)];
    LaterUpdate(f, x, h[x]);
    assert Stage(h[x].view.life) >= 3;
    hide Potential, LaterShot, Later, Published;
    LaterShrinks(f, h, null);
    var i := AfterHook(h, x.onCompleted);
    LaterTransitive(f, h, i);
    LaterShrinks(f, i, null);
    LaterAt(h, i, x);
    var j := AfterCallback(i, x);
    LaterTransitive(f, i, j);
    LaterAt(i, j, x);
    var g := AfterCleanup(j, x);
    LaterTransitive(f, j, g);
    g
  }

  ghost function AfterCallback(f: Forest, x: AsyncOperation): (g: Forest)
    requires x in f
    ensures Later(f, g)
    decreases Potential(f), 3, 0
  {
    LaterReflexive(f);
    hide Potential;
    if !f[x].callback then f
    else
      var h := f[x := f[x].(fired := f[x].fired + 1)];
      LaterUpdate(f, x, h[x]);
      LaterShrinks(f, h, null);
      var g := AfterHook(h, x.onDone);
      LaterTransitive(f, h, g);
      g
  }

  ghost function AfterCleanup(f: Forest, x: AsyncOperation): (g: Forest)
    requires x in f && Stage(f[x].view.life) >= 3
    ensures Later(f, g)
  {
    var h := f[x := Dropped(f[x])];
    LaterUpdate(f, x, h[x]);
    DetachedLater(h, x);
    var i := Detached(h, x);
    LaterTransitive(f, h, i);
    LaterUpdate(i, x, i[x].(callback := false));
    LaterTransitive(f, i, i[x := i[x].(callback := false)]);
    i[x := i[x].(callback := false)]
  }

  lemma DetachedLater(f: Forest, x: AsyncOperation)
    ensures Later(f, Detached(f, x))
  {
    LaterReflexive(f);
  }

  /** Cancel: mark and sweep, cancel what was found, then signal or complete. */
  ghost function AfterCancel(f: Forest, x: AsyncOperation, force: bool): (g: Forest)
    ensures Later(f, g)
    decreases Potential(f), 0, 0
  {
    LaterReflexive(f);
    hide Potential;
    if x !in f || f[x].view.cancelled then f
    else
      var h := f[x := Marked(f[x])];
      LaterUpdate(f, x, h[x]);
      LaterShrinks(f, h, x);
      var i := AfterCancelAll(h, Live(f, f[x].children));
      LaterTransitive(f, h, i);
      LaterShrinks(h, i, null);
      var g := AfterEnd(i, x, force);
      LaterTransitive(f, i, g);
      g
  }

  ghost function AfterCancelAll(f: Forest, found: seq<AsyncOperation>): (g: Forest)
    ensures Later(f, g)
    decreases Potential(f), 2, |found|
  {
    hide Potential, LaterShot;
    LaterReflexive(f);
    if found == [] then f
    else
      var h := AfterCancel(f, found[0], false);
      LaterShrinks(f, h, null);
      var g := AfterCancelAll(h, found[1..]);
      LaterTransitive(f, h, g);
      g
  }

  /** The end of Cancel: only a signal, or an attempt to complete. */
  ghost function AfterEnd(f: Forest, x: AsyncOperation, force: bool): (g: Forest)
    requires x in f
    ensures Later(f, g)
    decreases Potential(f), 5, 0
  {
    LaterReflexive(f);
    hide Potential;
    if !force && x.skip then AfterHook(f, x.onCancel)
    else if f[x].view.life != Started then f
    else
      var h := f[x := Claimed(f[x])];
      LaterUpdate(f, x, h[x]);
      LaterShrinks(f, h, x);
      var i := AfterHook(h, x.onCancel);
      LaterTransitive(f, h, i);
      LaterShrinks(h, i, null);
      assert LaterShot(h[x], i[x]);
      var g := AfterFinish(i, x, OPERATION_CANCELED);
      LaterTransitive(f, i, g);
      g
  }

  const NEW := Shot(FRESH, SUCCESS, true, [], false, {}, 0)

  function Begun(a: Shot): Shot {
    a.(view := Atomic(Call.Start, a.view).view)
  }

  function Attached(a: Shot, child: AsyncOperation): Shot {
    a.(children := a.children + [child])
  }

  /** The transition and the parent's list, before OnStart. */
  ghost function Entered(f: Forest, x: AsyncOperation): Forest
    requires x in f && (x.parent != null ==> x.parent in f)
  {
    var g := f[x := Begun(f[x])];
    if x.parent == null then g else g[x.parent := Attached(g[x.parent], x)]
  }

  ghost function AfterStart(f: Forest, x: AsyncOperation): Forest
    requires x in f && (x.parent != null ==> x.parent in f)
  {
    AfterHook(Entered(f, x), x.onStart)
  }

  // ---------------------------------------------------------------- the methods

  lemma OkMeans(f: Forest, x: AsyncOperation)
    requires Ok(f) && x in f
    ensures x.parent != null ==> x.parent in f
    ensures forall c :: c in f[x].children ==> c in f
    ensures Targets(x.onStart, f) && Targets(x.onCancel, f) && Targets(x.onCompleted, f) && Targets(x.onDone, f)
  {
  }

  lemma OkUpdate(f: Forest, x: AsyncOperation, b: Shot)
    requires Ok(f) && x in f && forall c :: c in b.children ==> c in f
    ensures Ok(f[x := b])
  {
  }

  lemma DropKeepsOk(f: Forest, x: AsyncOperation)
    requires Ok(f) && x in f
    ensures Ok(f[x := Dropped(f[x])])
  {
    OkUpdate(f, x, Dropped(f[x]));
  }

  lemma HookUnfolds(f: Forest, actions: seq<Action>)
    ensures AfterHook(f, actions) == if actions == [] then f else AfterHook(AfterAction(f, actions[0]), actions[1..])
  {
    hide AfterAction;
  }

  lemma TryCompleteUnfolds(f: Forest, x: AsyncOperation, error: Value)
    requires x in f
    ensures AfterTryComplete(f, x, error) == if f[x].view.life != Started then f else AfterFinish(f[x := Claimed(f[x])], x, error)
  {
    hide AfterFinish;
  }

  lemma FinishUnfolds(f: Forest, x: AsyncOperation, error: Value)
    requires x in f && Stage(f[x].view.life) >= 2
    ensures var g := AfterHook(f[x := Published(f[x], error)], x.onCompleted);
            && x in g && x in AfterCallback(g, x) && Stage(AfterCallback(g, x)[x].view.life) >= 3
            && AfterFinish(f, x, error) == AfterCleanup(AfterCallback(g, x), x)
  {
    var h := f[x := Published(f[x], error)];
    assert Stage(h[x].view.life) >= 3;
    hide AfterHook, AfterCallback, AfterCleanup, LaterShot, Later, Published;
    var i := AfterHook(h, x.onCompleted);
    LaterAt(h, i, x);
    LaterAt(i, AfterCallback(i, x), x);
  }

  lemma CallbackUnfolds(f: Forest, x: AsyncOperation)
    requires x in f
    ensures AfterCallback(f, x) == if !f[x].callback then f else AfterHook(f[x := f[x].(fired := f[x].fired + 1)], x.onDone)
  {
    hide AfterHook;
  }

  lemma CleanupUnfolds(f: Forest, x: AsyncOperation)
    requires x in f && Stage(f[x].view.life) >= 3
    ensures var g := Detached(f[x := Dropped(f[x])], x);
            x in g && AfterCleanup(f, x) == g[x := g[x].(callback := false)]
  {
  }

  lemma CancelUnfolds(f: Forest, x: AsyncOperation, force: bool)
    requires x in f
    ensures AfterCancel(f, x, force) ==
              if f[x].view.cancelled then f
              else AfterEnd(AfterCancelAll(f[x := Marked(f[x])], Live(f, f[x].children)), x, force)
  {
    hide AfterEnd, AfterCancelAll;
  }

  lemma CancelAllUnfolds(f: Forest, found: seq<AsyncOperation>)
    ensures AfterCancelAll(f, found) == if found == [] then f else AfterCancelAll(AfterCancel(f, found[0], false), found[1..])
  {
    hide AfterCancel;
  }

  lemma EndUnfolds(f: Forest, x: AsyncOperation, force: bool)
    requires x in f
    ensures !force && x.skip ==> AfterEnd(f, x, force) == AfterHook(f, x.onCancel)
    ensures !(!force && x.skip) && f[x].view.life != Started ==> AfterEnd(f, x, force) == f
    ensures !(!force && x.skip) && f[x].view.life == Started ==>
              var g := AfterHook(f[x := Claimed(f[x])], x.onCancel);
              x in g && Stage(g[x].view.life) >= 2 && AfterEnd(f, x, force) == AfterFinish(g, x, OPERATION_CANCELED)
  {
    hide AfterHook, AfterFinish, LaterShot;
    LaterAt(f[x := Claimed(f[x])], AfterHook(f[x := Claimed(f[x])], x.onCancel), x);
  }

  /** One operation has changed and the rest have not. */
  lemma TakeUpdated(all: set<AsyncOperation>, f: Forest, x: AsyncOperation, b: Shot)
    requires f.Keys == all && x in all && x.Shoot() == b && forall o :: o in all && o != x ==> f[o] == o.Shoot()
    ensures Take(all) == f[x := b]
  {
  }

  class AsyncOperation {
    const parent: AsyncOperation?
    ghost const above: set<AsyncOperation> // the parent, its parent and so on
    const skip: bool
    const onStart: seq<Action>
    const onCancel: seq<Action>
    const onCompleted: seq<Action>
    const onDone: seq<Action>
    var view: View
    var error: Value
    var callback: bool
    var children: seq<AsyncOperation>
    var expired: bool
    ghost var dropped: set<AsyncOperation>
    ghost var fired: nat

    constructor (parent: AsyncOperation?, skip: bool, onStart: seq<Action>, onCancel: seq<Action>, onCompleted: seq<Action>, onDone: seq<Action>)
      ensures Shoot() == NEW && this.parent == parent && this.skip == skip
      ensures above == (if parent == null then {} else parent.above + {parent}) && this !in above
      ensures this.onStart == onStart && this.onCancel == onCancel && this.onCompleted == onCompleted && this.onDone == onDone
    {
      this.parent, this.skip := parent, skip;
      above := if parent == null then {} else parent.above + {parent};
      this.onStart, this.onCancel, this.onCompleted, this.onDone := onStart, onCancel, onCompleted, onDone;
      view, error, callback, children, expired, dropped, fired := FRESH, SUCCESS, true, [], false, {}, 0;
    }

    ghost function Shoot(): Shot
      reads this
    {
      Shot(view, error, callback, children, expired, dropped, fired)
    }

    /** TransitionStarted, attaching to the parent, OnStart. The source asserts that
        attaching succeeded. */
    method Start(ghost all: set<AsyncOperation>)
      requires Ok(Take(all)) && this in all && view.life == Created && parent != this
      requires parent != null ==> Stage(parent.view.life) < 2 && !parent.view.cancelled
      modifies all
      ensures Ok(Take(all)) && Take(all) == AfterStart(old(Take(all)), this)
    {
      hide Ok, AfterHook;
      ghost var f := Take(all);
      OkMeans(f, this);
      view := view.(life := Started);
      ghost var g := f[this := Begun(f[this])];
      assert Take(all) == g;
      OkUpdate(f, this, g[this]);
      if parent != null {
        var attached := parent.AttachChild(this, all);
        assert attached;
      }
      RunHook(onStart, all);
    }

    /** The callbacks of user code, one action after the other. */
    method RunHook(actions: seq<Action>, ghost all: set<AsyncOperation>)
      requires Ok(Take(all)) && Targets(actions, Take(all))
      modifies all
      ensures Ok(Take(all)) && Take(all) == AfterHook(old(Take(all)), actions)
      decreases Potential(Take(all)), 2, |actions|
    {
      ghost var f := Take(all);
      hide Ok, Potential, LaterShot, AfterHook, AfterAction;
      HookUnfolds(f, actions);
      if actions != [] {
        RunAction(actions[0], all);
        LaterShrinks(f, Take(all), null);
        RunHook(actions[1..], all);
      }
    }

    method RunAction(a: Action, ghost all: set<AsyncOperation>)
      requires Ok(Take(all)) && a.target in all
      modifies all
      ensures Ok(Take(all)) && Take(all) == AfterAction(old(Take(all)), a)
      decreases Potential(Take(all)), 1, 0
    {
      match a
      case CompleteIt(target, e) => var won := target.TryComplete(e, all);
      case CancelIt(target, force) => target.Cancel(force, all);
    }

    method TryStartComplete() returns (won: bool)
      modifies this`view
      ensures Outcome(view, Swapped(won)) == Atomic(BeginComplete, old(view))
    {
      won := view.life == Started;
      if won { view := view.(life := Completing); }
    }

    method TryStartCompleteIn(ghost all: set<AsyncOperation>) returns (won: bool)
      requires Ok(Take(all)) && this in all
      modifies this`view
      ensures won == (old(view.life) == Started) && Ok(Take(all)) && Later(old(Take(all)), Take(all))
      ensures Take(all) == if won then old(Take(all))[this := Claimed(old(Shoot()))] else old(Take(all))
      ensures won ==> view.life == Completing
    {
      ghost var f := Take(all);
      won := TryStartComplete();
      TakeUpdated(all, f, this, Claimed(f[this]));
      LaterUpdate(f, this, Claimed(f[this]));
      assert !won ==> f[this := Claimed(f[this])] == f;
      hide Ok, Later;
      OkLater(f, Take(all));
    }

    method TryComplete(e: Value, ghost all: set<AsyncOperation>) returns (won: bool)
      requires Ok(Take(all)) && this in all
      modifies all
      ensures Ok(Take(all)) && Take(all) == AfterTryComplete(old(Take(all)), this, e)
      ensures won == (old(view.life) == Started)
      decreases Potential(Take(all)), 0, 0
    {
      ghost var f := Take(all);
      hide Ok, Potential, LaterShot, AfterTryComplete, AfterFinish, Claimed;
      TryCompleteUnfolds(f, this, e);
      won := TryStartCompleteIn(all);
      if won {
        LaterShrinks(f, Take(all), this);
        FinishComplete(e, all);
      }
    }

    method FinishComplete(e: Value, ghost all: set<AsyncOperation>)
      requires Ok(Take(all)) && this in all && Stage(view.life) >= 2
      modifies all
      ensures Ok(Take(all)) && Take(all) == AfterFinish(old(Take(all)), this, e)
      decreases Potential(Take(all)), 4, 0
    {
      ghost var f := Take(all);
      hide Ok, Potential, LaterShot, Later, AfterFinish, AfterHook, AfterCallback, AfterCleanup, Published;
      FinishUnfolds(f, this, e);
      Publish(e, all);
      ghost var g := Take(all);
      OkMeans(g, this);
      LaterShrinks(f, g, null);
      RunHook(onCompleted, all);
      ghost var h := Take(all);
      LaterShrinks(g, h, null);
      LaterAt(g, h, this);
      CallbackUnfolds(h, this);
      assert h[this] == Shoot();
      if callback { CallBack(all); }
      ghost var i := Take(all);
      LaterAt(h, i, this);
      assert i[this] == Shoot();
      Cleanup(all);
    }

    /** error_ = error, TransitionCompleted. */
    method Publish(e: Value, ghost all: set<AsyncOperation>)
      requires Ok(Take(all)) && this in all && Stage(view.life) >= 2
      modifies this`error, this`view
      ensures Ok(Take(all)) && Take(all) == old(Take(all))[this := Published(old(Shoot()), e)] && Stage(view.life) >= 3
      ensures Later(old(Take(all)), Take(all))
    {
      ghost var f := Take(all);
      error, view := e, Atomic(Complete, view).view;
      TakeUpdated(all, f, this, Published(f[this], e));
      LaterUpdate(f, this, Published(f[this], e));
      hide Ok, Later;
      OkLater(f, Take(all));
    }

    method CallBack(ghost all: set<AsyncOperation>)
      requires Ok(Take(all)) && this in all && callback
      modifies all
      ensures Ok(Take(all)) && Take(all) == AfterCallback(old(Take(all)), this)
      decreases Potential(Take(all)), 3, 0
    {
      ghost var f := Take(all);
      hide Ok, Potential, LaterShot, AfterHook, AfterCallback;
      CallbackUnfolds(f, this);
      CountFiring(all);
      OkMeans(Take(all), this);
      LaterShrinks(f, Take(all), null);
      RunHook(onDone, all);
    }

    method CountFiring(ghost all: set<AsyncOperation>)
      requires Ok(Take(all)) && this in all
      modifies this`fired
      ensures Ok(Take(all)) && Take(all) == old(Take(all))[this := old(Shoot()).(fired := old(fired) + 1)]
      ensures Later(old(Take(all)), Take(all))
    {
      ghost var f := Take(all);
      fired := fired + 1;
      TakeUpdated(all, f, this, f[this].(fired := fired));
      LaterUpdate(f, this, f[this].(fired := fired));
      hide Ok, Later;
      OkLater(f, Take(all));
    }

    method Cleanup(ghost all: set<AsyncOperation>)
      requires Ok(Take(all)) && this in all && Stage(view.life) >= 3
      modifies all
      ensures Ok(Take(all)) && Take(all) == AfterCleanup(old(Take(all)), this)
    {
      ghost var f := Take(all);
      hide Ok, AfterCleanup, Remaining, Dropped;
      CleanupUnfolds(f, this);
      OkMeans(f, this);
      DropChildren(all);
      ghost var g := Take(all);
      if parent != null {
        assert g[parent] == parent.Shoot();
        parent.DetachChild(this, all);
      }
      assert Take(all) == Detached(g, this);
      DropCallback(all);
    }

    method DropChildren(ghost all: set<AsyncOperation>)
      requires Ok(Take(all)) && this in all
      modifies this`children, this`dropped
      ensures Ok(Take(all)) && Take(all) == old(Take(all))[this := Dropped(old(Shoot()))]
    {
      ghost var f := Take(all);
      dropped, children := dropped + (set c | c in children), [];
      TakeUpdated(all, f, this, Dropped(f[this]));
      hide Ok;
      OkUpdate(f, this, Dropped(f[this]));
    }

    method DropCallback(ghost all: set<AsyncOperation>)
      requires Ok(Take(all)) && this in all
      modifies this`callback
      ensures Ok(Take(all)) && Take(all) == old(Take(all))[this := old(Shoot()).(callback := false)]
    {
      ghost var f := Take(all);
      callback := false;
      TakeUpdated(all, f, this, f[this].(callback := false));
      OkMeans(f, this);
      hide Ok;
      OkUpdate(f, this, f[this].(callback := false));
    }

    method DetachChild(child: AsyncOperation, ghost all: set<AsyncOperation>)
      requires Ok(Take(all)) && this in all
      modifies this`children
      ensures Ok(Take(all))
      ensures Take(all) == old(Take(all))[this := old(Shoot()).(children := Remaining(old(Take(all)), old(children), child))]
    {
      ghost var f := Take(all);
      OkMeans(f, this);
      hide Ok;
      var rest := RemoveIf(children, child, all);
      hide Remaining;
      SetChildren(rest, all);
    }

    method SetChildren(list: seq<AsyncOperation>, ghost all: set<AsyncOperation>)
      requires Ok(Take(all)) && this in all && forall c :: c in list ==> c in all
      modifies this`children
      ensures Ok(Take(all)) && Take(all) == old(Take(all))[this := old(Shoot()).(children := list)]
    {
      ghost var f := Take(all);
      children := list;
      TakeUpdated(all, f, this, f[this].(children := list));
      hide Ok;
      OkUpdate(f, this, f[this].(children := list));
    }

    static method RemoveIf(list: seq<AsyncOperation>, child: AsyncOperation, ghost all: set<AsyncOperation>) returns (rest: seq<AsyncOperation>)
      requires forall c :: c in list ==> c in all
      ensures rest == Remaining(Take(all), list, child)
    {
      rest := [];
      for i := |list| downto 0
        invariant rest == Remaining(Take(all), list[i..], child)
      {
        assert list[i..][1..] == list[i + 1..] && list[i] in list;
        if !(list[i] == child || list[i].expired) { rest := [list[i]] + rest; }
      }
      assert list[0..] == list;
    }

    /** The list is only extended while the operation is neither completing nor cancelled. */
    method AttachChild(child: AsyncOperation, ghost all: set<AsyncOperation>) returns (attached: bool)
      requires Ok(Take(all)) && this in all && child in all
      modifies this`children
      ensures Ok(Take(all)) && attached == (Stage(view.life) < 2 && !view.cancelled)
      ensures Take(all) == if attached then old(Take(all))[this := Attached(old(Shoot()), child)] else old(Take(all))
      ensures children == if attached then old(children) + [child] else old(children)
    {
      ghost var f := Take(all);
      OkMeans(f, this);
      hide Ok;
      attached := Stage(view.life) < 2 && !view.cancelled;
      if attached {
        children := children + [child];
        assert Take(all) == f[this := Attached(f[this], child)];
        OkUpdate(f, this, Attached(f[this], child));
      }
    }

    method Cancel(force: bool, ghost all: set<AsyncOperation>)
      requires Ok(Take(all)) && this in all
      modifies all
      ensures Ok(Take(all)) && Take(all) == AfterCancel(old(Take(all)), this, force)
      decreases Potential(Take(all)), 0, 0
    {
      ghost var f := Take(all);
      hide Ok, Potential, LaterShot, AfterCancel, AfterCancelAll, AfterEnd, Marked, Live;
      CancelUnfolds(f, this, force);
      if !view.cancelled {
        var found := MarkAndSweep(all);
        ghost var g := Take(all);
        LaterShrinks(f, g, this);
        CancelAll(found, all);
        LaterShrinks(g, Take(all), null);
        EndCancel(force, all);
      }
    }

    /** TryMarkCancelRequested, and the sweep under the lock. */
    method MarkAndSweep(ghost all: set<AsyncOperation>) returns (found: seq<AsyncOperation>)
      requires Ok(Take(all)) && this in all && !view.cancelled
      modifies this`view, this`children
      ensures Ok(Take(all)) && Take(all) == old(Take(all))[this := Marked(old(Shoot()))] && view.cancelled
      ensures Later(old(Take(all)), Take(all))
      ensures found == Live(old(Take(all)), old(children)) && forall c :: c in found ==> c in all
    {
      ghost var f := Take(all);
      OkMeans(f, this);
      hide Ok, Live;
      found := Sweep(all);
      view := view.(cancelled := true);
      TakeUpdated(all, f, this, Marked(f[this]));
      LaterUpdate(f, this, Marked(f[this]));
      hide Later;
      OkLater(f, Take(all));
    }

    /** The children that are still alive, and an empty list. */
    method Sweep(ghost all: set<AsyncOperation>) returns (found: seq<AsyncOperation>)
      requires forall c :: c in children ==> c in all
      modifies this`children
      ensures children == [] && found == Live(old(Take(all)), old(children))
    {
      found := [];
      for i := |children| downto 0
        invariant children == old(children) && Take(all) == old(Take(all)) && found == Live(Take(all), children[i..])
      {
        assert children[i..][1..] == children[i + 1..] && children[i] in children;
        if !children[i].expired { found := [children[i]] + found; }
      }
      assert children[0..] == children;
      children := [];
    }

    static method CancelAll(found: seq<AsyncOperation>, ghost all: set<AsyncOperation>)
      requires Ok(Take(all)) && forall c :: c in found ==> c in all
      modifies all
      ensures Ok(Take(all)) && Take(all) == AfterCancelAll(old(Take(all)), found)
      decreases Potential(Take(all)), 2, |found|
    {
      if found != [] {
        ghost var f := Take(all);
        hide Ok, Potential, LaterShot;
        found[0].Cancel(false, all);
        LaterShrinks(f, Take(all), null);
        CancelAll(found[1..], all);
      }
    }

    /** The end of Cancel: only a signal, or an attempt to complete. */
    method EndCancel(force: bool, ghost all: set<AsyncOperation>)
      requires Ok(Take(all)) && this in all
      modifies all
      ensures Ok(Take(all)) && Take(all) == AfterEnd(old(Take(all)), this, force)
      decreases Potential(Take(all)), 5, 0
    {
      ghost var f := Take(all);
      hide Ok, Potential, LaterShot, AfterEnd, AfterHook, AfterFinish, Claimed;
      EndUnfolds(f, this, force);
      OkMeans(f, this);
      if !force && skip {
        RunHook(onCancel, all);
      } else {
        var won := TryStartCompleteIn(all);
        ghost var g := Take(all);
        if won {
          OkMeans(g, this);
          LaterShrinks(f, g, this);
          RunHook(onCancel, all);
          LaterShrinks(g, Take(all), null);
          LaterAt(g, Take(all), this);
          assert Take(all)[this] == Shoot();
          FinishComplete(OPERATION_CANCELED, all);
        }
      }
    }
  }
}
