/** Operations without hooks, and with one callback: what their completion and cancel
    come down to. */
module CancelPlain {
  import opened LifecycleWord
  import opened ErrorCodes
  import opened CancelTree
  import opened CancelEffects
  import opened CancelReach

  predicate Bare(o: AsyncOperation) {
    o.onStart == [] && o.onCancel == [] && o.onCompleted == [] && o.onDone == [] && !o.skip
  }

  ghost predicate Hookless(o: AsyncOperation) {
    o.onCancel == [] && o.onCompleted == [] && o.onDone == []
  }

  // ---------------------------------------------------------------- without hooks

  ghost function CompletedShot(a: Shot, error: Value): Shot {
    Shot(a.view.(life := Completed), error, false, [], a.expired, a.dropped + (set c | c in a.children),
         a.fired + if a.callback then 1 else 0)
  }

  /** Completing an operation whose hooks do nothing changes it, and its parent's list. */
  lemma CompletesPlainly(f: Forest, x: AsyncOperation, error: Value)
    requires x in f && f[x].view.life == Started && x.parent != x && x.onCompleted == [] && x.onDone == []
    ensures var g := AfterTryComplete(f, x, error);
            && g.Keys == f.Keys && g[x] == CompletedShot(f[x], error)
            && forall o :: o in f && o != x ==> g[o] == f[o].(children := g[o].children)
  {
    hide AfterTryComplete, AfterCleanup, Later;
    ComesToCleanup(f, x, error);
    CleansPlainly(f[x := Fired(f[x], error)], x);
  }

  function Fired(a: Shot, error: Value): Shot {
    a.(view := a.view.(life := Completed), error := error, fired := a.fired + if a.callback then 1 else 0)
  }

  lemma UpdateTwice(f: Forest, x: AsyncOperation, a: Shot, b: Shot)
    ensures f[x := a][x := b] == f[x := b]
  {
  }

  lemma ClaimedIs(a: Shot)
    requires a.view.life == Started
    ensures Claimed(a) == a.(view := a.view.(life := Completing))
  {
  }

  lemma ComesToCleanup(f: Forest, x: AsyncOperation, error: Value)
    requires x in f && f[x].view.life == Started && x.onCompleted == [] && x.onDone == []
    ensures AfterTryComplete(f, x, error) == AfterCleanup(f[x := Fired(f[x], error)], x)
  {
    var b := f[x].(view := f[x].view.(life := Completing));
    assert Fired(b, error) == Fired(f[x], error);
    hide AfterTryComplete, AfterFinish, AfterCleanup, Claimed, Later, Fired;
    ClaimedIs(f[x]);
    TryCompleteUnfolds(f, x, error);
    FinishesQuietly(f[x := b], x, error);
    UpdateTwice(f, x, b, Fired(b, error));
  }

  lemma FinishesQuietly(f: Forest, x: AsyncOperation, error: Value)
    requires x in f && f[x].view.life == Completing && x.onCompleted == [] && x.onDone == []
    ensures AfterFinish(f, x, error) == AfterCleanup(f[x := Fired(f[x], error)], x)
  {
    var c := f[x].(view := f[x].view.(life := Completed), error := error);
    var d := Fired(f[x], error);
    assert d == c.(fired := c.fired + if c.callback then 1 else 0);
    hide AfterFinish, AfterCallback, AfterCleanup, Later, Fired;
    var g: Forest := f[x := c];
    CallsBackPlainly(g, x, d);
    UpdateTwice(f, x, c, d);
    assert AfterCallback(g, x) == f[x := d];
    FinishesPlainly(f, x, error);
  }

  lemma CallsBackPlainly(f: Forest, x: AsyncOperation, d: Shot)
    requires x in f && x.onDone == [] && d == f[x].(fired := f[x].fired + if f[x].callback then 1 else 0)
    ensures AfterCallback(f, x) == f[x := d]
  {
    hide AfterHook, AfterCallback;
    CallbackUnfolds(f, x);
    HookUnfolds(f[x := d], []);
    assert !f[x].callback ==> f[x := d] == f;
  }

  lemma FinishesPlainly(f: Forest, x: AsyncOperation, error: Value)
    requires x in f && f[x].view.life == Completing && x.onCompleted == []
    ensures var g: Forest := f[x := f[x].(view := f[x].view.(life := Completed), error := error)];
            && x in AfterCallback(g, x) && Stage(AfterCallback(g, x)[x].view.life) >= 3
            && AfterFinish(f, x, error) == AfterCleanup(AfterCallback(g, x), x)
  {
    assert Published(f[x], error) == f[x].(view := f[x].view.(life := Completed), error := error);
    hide AfterFinish, AfterHook, AfterCallback, AfterCleanup, Published, Later;
    FinishUnfolds(f, x, error);
    HookUnfolds(f[x := Published(f[x], error)], []);
  }

  lemma CleansPlainly(f: Forest, x: AsyncOperation)
    requires x in f && Stage(f[x].view.life) >= 3 && x.parent != x
    ensures var g := AfterCleanup(f, x);
            && g.Keys == f.Keys && g[x] == Dropped(f[x]).(callback := false)
            && forall o :: o in f && o != x ==> g[o] == f[o].(children := g[o].children)
  {
    hide AfterCleanup, Detached, Dropped;
    CleanupUnfolds(f, x);
    DetachesFromListsOnly(f[x := Dropped(f[x])], x);
  }

  lemma DetachesFromListsOnly(f: Forest, x: AsyncOperation)
    requires x in f && x.parent != x
    ensures var g := Detached(f, x);
            g.Keys == f.Keys && g[x] == f[x] && forall o :: o in f ==> g[o] == f[o].(children := g[o].children)
  {
    hide Remaining;
  }

  lemma LaterKeys(f: Forest, g: Forest)
    requires Later(f, g)
    ensures f.Keys == g.Keys
  {
  }

  /** A childless operation whose callback completes another that has not been swept:
      cancelling the one discards the children of the other. */
  lemma CallbackDiscards(f: Forest, y: AsyncOperation, z: AsyncOperation, error: Value)
    requires y in f && f[y].view == View(Started, false, false) && f[y].children == [] && f[y].callback && !y.skip && y.parent != y
    requires y.onCancel == [] && y.onCompleted == [] && y.onDone == [CompleteIt(z, error)]
    requires z in f && z != y && f[z].view.life == Started && z.parent != z && z.onCompleted == [] && z.onDone == []
    ensures z in AfterCancel(f, y, false) && forall c :: c in f[z].children ==> c in AfterCancel(f, y, false)[z].dropped
  {
    var a := f[y].(view := View(Completed, false, true), error := OPERATION_CANCELED, fired := f[y].fired + 1);
    var k: Forest := f[y := a];
    assert Stage(Completed) >= 3 && k[z] == f[z] && k[y] == a;
    hide *;
    ComesToCallback(f, y);
    HookOfOne(k, z, error);
    CallbackThenCleanup(k, y, z, error);
  }

  lemma CallbackThenCleanup(f: Forest, y: AsyncOperation, z: AsyncOperation, error: Value)
    requires z in f && z != y && f[z].view.life == Started && z.parent != z && z.onCompleted == [] && z.onDone == []
    requires y in f && y.parent != y && Stage(f[y].view.life) >= 3
    ensures var g := AfterTryComplete(f, z, error);
            && y in g && Stage(g[y].view.life) >= 3 && z in AfterCleanup(g, y)
            && forall c :: c in f[z].children ==> c in AfterCleanup(g, y)[z].dropped
  {
    hide AfterCleanup, AfterTryComplete, Later, CompletedShot, Dropped;
    CompletesPlainly(f, z, error);
    CompletedDrops(f[z], error);
    CleansPlainly(AfterTryComplete(f, z, error), y);
  }

  lemma HookOfOne(f: Forest, z: AsyncOperation, error: Value)
    ensures AfterHook(f, [CompleteIt(z, error)]) == AfterTryComplete(f, z, error)
  {
    var actions := [CompleteIt(z, error)];
    assert AfterAction(f, actions[0]) == AfterTryComplete(f, z, error) && actions[1..] == [];
    hide *;
    HookUnfolds(f, actions);
    HookUnfolds(AfterTryComplete(f, z, error), []);
  }

  lemma CompletedDrops(a: Shot, error: Value)
    ensures forall c :: c in a.children ==> c in CompletedShot(a, error).dropped
  {
  }

  /** Cancelling a started, childless operation comes down to its callback and Cleanup. */
  lemma ComesToCallback(f: Forest, y: AsyncOperation)
    requires y in f && f[y].view == View(Started, false, false) && f[y].children == [] && f[y].callback && !y.skip
    requires y.onCancel == [] && y.onCompleted == []
    ensures var k: Forest := f[y := f[y].(view := View(Completed, false, true), error := OPERATION_CANCELED, fired := f[y].fired + 1)];
            && y in AfterHook(k, y.onDone) && Stage(AfterHook(k, y.onDone)[y].view.life) >= 3
            && AfterCancel(f, y, false) == AfterCleanup(AfterHook(k, y.onDone), y)
  {
    hide AfterCancel, AfterFinish, AfterHook, AfterCallback, AfterCleanup, Later;
    ComesToFinish(f, y);
    var i: Forest := f[y := f[y].(view := View(Completing, false, true))];
    FinishesPlainly(i, y, OPERATION_CANCELED);
    var j: Forest := f[y := f[y].(view := View(Completed, false, true), error := OPERATION_CANCELED)];
    assert i[y := j[y]] == j;
    CallbackUnfolds(j, y);
    var k: Forest := f[y := j[y].(fired := f[y].fired + 1)];
    assert j[y := k[y]] == k;
  }

  lemma ComesToFinish(f: Forest, y: AsyncOperation)
    requires y in f && f[y].view == View(Started, false, false) && f[y].children == [] && !y.skip && y.onCancel == []
    ensures AfterCancel(f, y, false) == AfterFinish(f[y := f[y].(view := View(Completing, false, true))], y, OPERATION_CANCELED)
  {
    var m := f[y].(view := View(Started, false, true));
    var b := f[y].(view := View(Completing, false, true));
    assert Marked(f[y]) == m && Live(f, []) == [];
    hide AfterCancel, AfterCancelAll, AfterEnd, AfterFinish, AfterHook, Later, Marked, Claimed, Live;
    ClaimedIs(m);
    CancelUnfolds(f, y, false);
    var h: Forest := f[y := m];
    CancelAllUnfolds(h, []);
    EndsPlainly(h, y, b);
    UpdateTwice(f, y, m, b);
  }

  lemma EndsPlainly(f: Forest, y: AsyncOperation, b: Shot)
    requires y in f && f[y].view.life == Started && !y.skip && y.onCancel == [] && b == Claimed(f[y]) && b.view.life == Completing
    ensures AfterEnd(f, y, false) == AfterFinish(f[y := b], y, OPERATION_CANCELED)
  {
    hide AfterEnd, AfterFinish, AfterHook, Later, Claimed;
    EndUnfolds(f, y, false);
    HookUnfolds(f[y := b], []);
  }

  /** A completion with a callback comes down to that callback and Cleanup. */
  lemma FinishComesToCallback(f: Forest, y: AsyncOperation, d: Shot)
    requires y in f && f[y].view.life == Completing && f[y].callback && y.onCompleted == []
    requires d == f[y].(view := f[y].view.(life := Completed), error := OPERATION_CANCELED, fired := f[y].fired + 1)
    ensures y in AfterHook(f[y := d], y.onDone) && Stage(AfterHook(f[y := d], y.onDone)[y].view.life) >= 3
    ensures AfterFinish(f, y, OPERATION_CANCELED) == AfterCleanup(AfterHook(f[y := d], y.onDone), y)
  {
    var c := f[y].(view := f[y].view.(life := Completed), error := OPERATION_CANCELED);
    var g: Forest := f[y := c];
    assert d == g[y].(fired := g[y].fired + 1);
    hide AfterFinish, AfterHook, AfterCallback, AfterCleanup, Later;
    FinishesPlainly(f, y, OPERATION_CANCELED);
    CallbackUnfolds(g, y);
    UpdateTwice(f, y, c, d);
  }

  function CalledBack(a: Shot): Shot {
    a.(view := a.view.(life := Completed), error := OPERATION_CANCELED, fired := a.fired + 1)
  }

  lemma CalledBackFrom(a: Shot, b: Shot)
    requires a.view.life == Started && b == Claimed(a)
    ensures b.view.life == Completing && b.callback == a.callback
    ensures CalledBack(a) == b.(view := b.view.(life := Completed), error := OPERATION_CANCELED, fired := b.fired + 1)
  {
  }

  lemma EndComesToCallback(f: Forest, y: AsyncOperation)
    requires y in f && f[y].view.life == Started && f[y].callback && !y.skip && y.onCancel == [] && y.onCompleted == []
    ensures var k: Forest := f[y := CalledBack(f[y])];
            && y in AfterHook(k, y.onDone) && Stage(AfterHook(k, y.onDone)[y].view.life) >= 3
            && AfterEnd(f, y, false) == AfterCleanup(AfterHook(k, y.onDone), y)
  {
    var b := Claimed(f[y]);
    hide AfterEnd, AfterFinish, AfterHook, AfterCleanup, Claimed, CalledBack, Later;
    CalledBackFrom(f[y], b);
    EndsPlainly(f, y, b);
    FinishComesToCallback(f[y := b], y, CalledBack(f[y]));
    UpdateTwice(f, y, b, CalledBack(f[y]));
  }

  /** The end of a cancel whose callback completes z discards the children of z. */
  lemma EndFires(f: Forest, y: AsyncOperation, z: AsyncOperation, error: Value)
    requires y in f && f[y].view.life == Started && f[y].callback && !y.skip && y.parent != y
    requires y.onCancel == [] && y.onCompleted == [] && y.onDone == [CompleteIt(z, error)]
    requires z in f && z != y && f[z].view.life == Started && z.parent != z && z.onCompleted == [] && z.onDone == []
    ensures z in AfterEnd(f, y, false) && forall c :: c in f[z].children ==> c in AfterEnd(f, y, false)[z].dropped
  {
    var k: Forest := f[y := CalledBack(f[y])];
    assert k[z] == f[z] && Stage(k[y].view.life) >= 3;
    hide AfterEnd, AfterHook, AfterCleanup, AfterTryComplete, Later, CalledBack;
    EndComesToCallback(f, y);
    HookOfOne(k, z, error);
    CallbackThenCleanup(k, y, z, error);
  }
}
