/** What one call of Cancel, TryComplete or a hook leaves behind in a forest, whatever
    the hooks do: completions that start also end, cancelled operations complete,
    and no child leaves the list of its parent unaccounted for. */
module CancelEffects {
  import opened LifecycleWord
  import opened ErrorCodes
  import opened CancelTree

  /** Why a child may have left the list of its parent. */
  ghost predicate Accounted(g: Forest, parent: AsyncOperation, child: AsyncOperation) {
    child in g && parent in g &&
    (g[child].view.cancelled || Stage(g[child].view.life) >= 3 || g[child].expired || child in g[parent].dropped)
  }

  ghost predicate Accounts(f: Forest, g: Forest) {
    forall o, c :: o in f && o in g && c in f[o].children ==> c in g[o].children || Accounted(g, o, c)
  }

  /** A completion that starts also ends, firing the callback once; one that had
      started is not touched; and a cancel that was not there before completes what
      was started, unless it is only a signal. */
  ghost predicate Settles(o: AsyncOperation, a: Shot, b: Shot) {
    && (if Stage(a.view.life) >= 2 then
          b.view.life == a.view.life && b.error == a.error && b.fired == a.fired && b.callback == a.callback
        else Stage(b.view.life) >= 2 ==>
               Stage(b.view.life) >= 3 && b.children == [] && b.fired == a.fired + (if a.callback then 1 else 0) && !b.callback)
    && (Stage(b.view.life) < 2 ==> b.callback == a.callback && b.fired == a.fired && b.view.life == a.view.life)
    && (b.view.cancelled && !a.view.cancelled && !o.skip && a.view.life != Created ==> Stage(b.view.life) >= 2)
  }

  ghost predicate Unlisted(g: Forest, o: AsyncOperation) {
    o.parent != null && o.parent in g ==> o !in g[o.parent].children
  }

  /** What has completed in between is no longer in the list of its parent. */
  ghost predicate Detaches(f: Forest, g: Forest, x: AsyncOperation?) {
    forall o :: o in f && o in g && o != x && Stage(f[o].view.life) < 2 <= Stage(g[o].view.life) ==> Unlisted(g, o)
  }

  /** f may become g; x, if any, is in the middle of its own completion or cancel. */
  ghost predicate EvolvedBut(f: Forest, g: Forest, x: AsyncOperation?) {
    Later(f, g) && Accounts(f, g) && Detaches(f, g, x) && forall o :: o in f && o != x ==> Settles(o, f[o], g[o])
  }

  ghost predicate Evolved(f: Forest, g: Forest) {
    EvolvedBut(f, g, null)
  }

  lemma AccountedLater(g: Forest, h: Forest, o: AsyncOperation, c: AsyncOperation)
    requires Later(g, h) && Accounted(g, o, c)
    ensures Accounted(h, o, c)
  {
    LaterAt(g, h, o);
    LaterAt(g, h, c);
  }

  lemma AccountsTransitive(f: Forest, g: Forest, h: Forest)
    requires Later(f, g) && Later(g, h) && Accounts(f, g) && Accounts(g, h)
    ensures Accounts(f, h)
  {
    hide Accounted, LaterShot;
    forall o, c | o in f && o in h && c in f[o].children ensures c in h[o].children || Accounted(h, o, c) {
      if c !in g[o].children { AccountedLater(g, h, o, c); }
    }
  }

  lemma UnlistedLater(g: Forest, h: Forest, o: AsyncOperation)
    requires Later(g, h) && Unlisted(g, o)
    ensures Unlisted(h, o)
  {
    if o.parent != null && o.parent in g { LaterAt(g, h, o.parent); }
  }

  lemma DetachesTransitive(f: Forest, g: Forest, h: Forest, x: AsyncOperation?)
    requires Later(f, g) && Later(g, h) && Detaches(f, g, x) && Detaches(g, h, x)
    ensures Detaches(f, h, x)
  {
    hide Unlisted, LaterShot;
    forall o | o in f && o in h && o != x && Stage(f[o].view.life) < 2 <= Stage(h[o].view.life) ensures Unlisted(h, o) {
      if Stage(g[o].view.life) >= 2 { UnlistedLater(g, h, o); }
    }
  }

  lemma SettlesTransitive(o: AsyncOperation, a: Shot, b: Shot, c: Shot)
    requires LaterShot(a, b) && LaterShot(b, c) && Settles(o, a, b) && Settles(o, b, c)
    ensures Settles(o, a, c)
  {
    NoneLeft(b.children, c.children);
  }

  lemma EvolvedTransitive(f: Forest, g: Forest, h: Forest, x: AsyncOperation?)
    requires EvolvedBut(f, g, x) && EvolvedBut(g, h, x)
    ensures EvolvedBut(f, h, x)
  {
    hide LaterShot, Settles, Accounts, Detaches;
    LaterTransitive(f, g, h);
    AccountsTransitive(f, g, h);
    DetachesTransitive(f, g, h, x);
    forall o | o in f && o != x ensures Settles(o, f[o], h[o]) {
      LaterAt(f, g, o);
      LaterAt(g, h, o);
      SettlesTransitive(o, f[o], g[o], h[o]);
    }
  }

  lemma EvolvedReflexive(f: Forest, x: AsyncOperation?)
    ensures EvolvedBut(f, f, x)
  {
    LaterReflexive(f);
  }

  lemma EvolvedForgets(f: Forest, g: Forest, x: AsyncOperation?)
    requires Evolved(f, g)
    ensures EvolvedBut(f, g, x)
  {
  }

  lemma EvolvedExcept(f: Forest, g: Forest, x: AsyncOperation)
    requires EvolvedBut(f, g, x)
    requires x in f ==> Settles(x, f[x], g[x]) && (Stage(f[x].view.life) < 2 <= Stage(g[x].view.life) ==> Unlisted(g, x))
    ensures Evolved(f, g)
  {
  }

  /** One operation changes, and no child of it gets lost. */
  lemma EvolvedUpdate(f: Forest, x: AsyncOperation, b: Shot)
    requires x in f && LaterShot(f[x], b) && forall c :: c in f[x].children ==> c in b.children || Accounted(f[x := b], x, c)
    ensures EvolvedBut(f, f[x := b], x)
  {
    LaterUpdate(f, x, b);
  }

  lemma EvolvedAt(f: Forest, g: Forest, x: AsyncOperation?, o: AsyncOperation)
    requires EvolvedBut(f, g, x) && o in f && o != x
    ensures Settles(o, f[o], g[o])
  {
  }

  lemma ActionEvolves(f: Forest, a: Action)
    requires Ok(f)
    ensures Evolved(f, AfterAction(f, a))
    decreases Potential(f), 1, 0
  {
    hide Ok, EvolvedBut, Potential, AfterTryComplete, AfterCancel;
    match a
    case CompleteIt(target, error) => TryCompleteEvolves(f, target, error);
    case CancelIt(target, force) => CancelEvolves(f, target, force);
  }

  lemma HookEvolves(f: Forest, actions: seq<Action>)
    requires Ok(f)
    ensures Evolved(f, AfterHook(f, actions))
    decreases Potential(f), 2, |actions|
  {
    hide Ok, EvolvedBut, Potential, AfterHook, AfterAction;
    HookUnfolds(f, actions);
    EvolvedReflexive(f, null);
    if actions != [] {
      var g := AfterAction(f, actions[0]);
      ActionEvolves(f, actions[0]);
      OkLater(f, g);
      LaterShrinks(f, g, null);
      HookEvolves(g, actions[1..]);
      EvolvedTransitive(f, g, AfterHook(f, actions), null);
    }
  }

  /** What the small steps of a completion have in common. */
  ghost predicate StepsTo(f: Forest, x: AsyncOperation, h: Forest) {
    x in f && x in h && EvolvedBut(f, h, x) && Later(f, h) && (Ok(f) ==> Ok(h)) && Potential(h) <= Potential(f)
  }

  lemma UpdateSteps(f: Forest, x: AsyncOperation, b: Shot)
    requires x in f && LaterShot(f[x], b) && b.children == f[x].children
    ensures StepsTo(f, x, f[x := b])
  {
    EvolvedUpdate(f, x, b);
    hide Ok, EvolvedBut, Potential, LaterShot;
    LaterOf(f, f[x := b], x);
    LaterShrinks(f, f[x := b], null);
    if Ok(f) { OkLater(f, f[x := b]); }
  }

  lemma ClaimSteps(f: Forest, x: AsyncOperation)
    requires x in f && f[x].view.life == Started
    ensures var h := f[x := Claimed(f[x])];
            && StepsTo(f, x, h) && Potential(h) < Potential(f)
            && h[x] == f[x].(view := f[x].view.(life := Completing))
  {
    UpdateSteps(f, x, Claimed(f[x]));
    hide Potential, EvolvedBut, Ok;
    LaterShrinks(f, f[x := Claimed(f[x])], x);
  }

  /** If a has begun to complete, b is as far and has the same error and callback. */
  predicate SameCompletion(a: Shot, b: Shot) {
    Stage(a.view.life) >= 2 ==> b.view.life == a.view.life && b.error == a.error && b.fired == a.fired && b.callback == a.callback
  }

  lemma HookSteps(f: Forest, x: AsyncOperation, actions: seq<Action>)
    requires Ok(f) && x in f && Evolved(f, AfterHook(f, actions))
    ensures StepsTo(f, x, AfterHook(f, actions)) && SameCompletion(f[x], AfterHook(f, actions)[x])
    ensures Precedes(f[x].view, AfterHook(f, actions)[x].view) && (f[x].children == [] ==> AfterHook(f, actions)[x].children == [])
  {
    var g := AfterHook(f, actions);
    EvolvedAt(f, g, null, x);
    assert SameCompletion(f[x], g[x]);
    hide Ok, EvolvedBut, Potential, LaterShot, AfterHook, Settles;
    EvolvedForgets(f, g, x);
    LaterShrinks(f, g, null);
    LaterAt(f, g, x);
    OkLater(f, g);
  }

  lemma StepsCompose(f: Forest, x: AsyncOperation, g: Forest, h: Forest)
    requires StepsTo(f, x, g) && StepsTo(g, x, h)
    ensures StepsTo(f, x, h)
  {
    hide Ok, EvolvedBut, Potential, Later;
    EvolvedTransitive(f, g, h, x);
    LaterTransitive(f, g, h);
  }

  lemma TryCompleteEvolves(f: Forest, x: AsyncOperation, error: Value)
    requires Ok(f)
    ensures Evolved(f, AfterTryComplete(f, x, error))
    decreases Potential(f), 0, 0
  {
    hide Ok, EvolvedBut, Potential, AfterTryComplete, AfterFinish, Claimed, LaterShot;
    EvolvedReflexive(f, null);
    if x in f { TryCompleteUnfolds(f, x, error); } else { NothingToComplete(f, x, error); }
    if x in f && f[x].view.life == Started {
      var h := f[x := Claimed(f[x])];
      ClaimSteps(f, x);
      FinishEvolves(h, x, error);
      var g := AfterFinish(h, x, error);
      EvolvedTransitive(f, h, g, x);
      LaterOf(f, g, x);
      LaterAt(f, g, x);
      EvolvedExcept(f, g, x);
    }
  }

  lemma NothingToComplete(f: Forest, x: AsyncOperation, error: Value)
    requires x !in f
    ensures AfterTryComplete(f, x, error) == f
  {
  }

  lemma LaterOf(f: Forest, g: Forest, x: AsyncOperation?)
    requires EvolvedBut(f, g, x)
    ensures Later(f, g)
  {
  }

  /** f became g while x ran its completion, which is over. */
  ghost predicate Finished(f: Forest, g: Forest, x: AsyncOperation, error: Value) {
    && EvolvedBut(f, g, x) && x in f && x in g && g[x].view.life == Completed && g[x].children == [] && g[x].error == error
    && !g[x].callback && g[x].fired == f[x].fired + (if f[x].callback then 1 else 0) && Unlisted(g, x)
  }

  lemma PublishSteps(f: Forest, x: AsyncOperation, error: Value)
    requires x in f && f[x].view.life == Completing
    ensures StepsTo(f, x, f[x := Published(f[x], error)])
    ensures Published(f[x], error) == f[x].(error := error, view := f[x].view.(life := Completed))
  {
    UpdateSteps(f, x, Published(f[x], error));
  }

  lemma FinishEvolves(f: Forest, x: AsyncOperation, error: Value)
    requires Ok(f) && x in f && f[x].view.life == Completing
    ensures Finished(f, AfterFinish(f, x, error), x, error)
    decreases Potential(f), 4, 0
  {
    hide StepsTo, Finished, Ok, EvolvedBut, Potential, LaterShot, Later, AfterFinish, AfterHook, AfterCallback, AfterCleanup, Published;
    FinishUnfolds(f, x, error);
    PublishSteps(f, x, error);
    var h: Forest := f[x := Published(f[x], error)];
    OnCompletedEvolves(f, x, error, h);
    FinishCallbackEvolves(f, x, AfterHook(h, x.onCompleted));
  }

  lemma OnCompletedEvolves(f: Forest, x: AsyncOperation, error: Value, h: Forest)
    requires Ok(f) && StepsTo(f, x, h) && h[x].view.life == Completed
    ensures var i := AfterHook(h, x.onCompleted);
            && StepsTo(f, x, i) && i[x].view.life == Completed
            && i[x].error == h[x].error && i[x].fired == h[x].fired && i[x].callback == h[x].callback
    decreases Potential(f), 3, 0
  {
    StepsMean(f, x, h);
    hide *;
    HookEvolves(h, x.onCompleted);
    HookSteps(h, x, x.onCompleted);
    var i := AfterHook(h, x.onCompleted);
    StepsCompose(f, x, h, i);
    SameCompletionMeans(h[x], i[x]);
    StepsMean(f, x, i);
  }

  lemma StepsMean(f: Forest, x: AsyncOperation, h: Forest)
    requires StepsTo(f, x, h)
    ensures x in h && EvolvedBut(f, h, x) && Later(f, h) && (Ok(f) ==> Ok(h)) && Potential(h) <= Potential(f)
  {
  }

  lemma SameCompletionMeans(a: Shot, b: Shot)
    requires SameCompletion(a, b) && a.view.life == Completed
    ensures b.view.life == Completed && b.error == a.error && b.fired == a.fired && b.callback == a.callback
  {
  }

  lemma FinishCallbackEvolves(f: Forest, x: AsyncOperation, i: Forest)
    requires Ok(f) && StepsTo(f, x, i) && i[x].view.life == Completed
    requires x in AfterCallback(i, x) && Stage(AfterCallback(i, x)[x].view.life) >= 3
    requires x in f && i[x].callback == f[x].callback && i[x].fired == f[x].fired
    ensures Finished(f, AfterCleanup(AfterCallback(i, x), x), x, i[x].error)
    decreases Potential(f), 3, 1
  {
    hide Ok, EvolvedBut, Potential, LaterShot, Later, AfterCallback, AfterCleanup, Settles;
    CallbackEvolves(i, x);
    var j := AfterCallback(i, x);
    EvolvedTransitive(f, i, j, x);
    OkLater(i, j);
    CleanupEvolves(j, x);
    EvolvedTransitive(f, j, AfterCleanup(j, x), x);
  }

  lemma CallbackEvolves(f: Forest, x: AsyncOperation)
    requires Ok(f) && x in f && f[x].view.life == Completed
    ensures var g := AfterCallback(f, x);
            && EvolvedBut(f, g, x) && x in g && g[x].view.life == Completed && g[x].error == f[x].error
            && g[x].fired == f[x].fired + (if f[x].callback then 1 else 0)
    decreases Potential(f), 3, 0
  {
    hide Ok, EvolvedBut, Potential, AfterCallback, AfterHook;
    EvolvedReflexive(f, x);
    CallbackUnfolds(f, x);
    if f[x].callback {
      var h := f[x := f[x].(fired := f[x].fired + 1)];
      UpdateSteps(f, x, h[x]);
      hide LaterShot;
      HookEvolves(h, x.onDone);
      HookSteps(h, x, x.onDone);
      StepsCompose(f, x, h, AfterHook(h, x.onDone));
    }
  }

  lemma CleanupEvolves(f: Forest, x: AsyncOperation)
    requires Ok(f) && x in f && f[x].view.life == Completed
    ensures var g := AfterCleanup(f, x);
            && EvolvedBut(f, g, x) && x in g && g[x].view == f[x].view && g[x].children == [] && g[x].error == f[x].error
            && !g[x].callback && g[x].fired == f[x].fired && Unlisted(g, x)
  {
    var h := f[x := Dropped(f[x])];
    OkMeans(f, x);
    EvolvedUpdate(f, x, h[x]);
    DropKeepsOk(f, x);
    var i := Detached(h, x);
    DetachEvolves(h, x);
    assert i[x].view == f[x].view && i[x].error == f[x].error && i[x].fired == f[x].fired && i[x].children == [] && Unlisted(i, x) by { DetachSelf(h, x); }
    hide Ok, EvolvedBut, Detached, AfterCleanup, Dropped, LaterShot;
    CleanupUnfolds(f, x);
    EvolvedForgets(h, i, x);
    EvolvedTransitive(f, h, i, x);
    DropsCallback(i, x);
    EvolvedTransitive(f, i, AfterCleanup(f, x), x);
  }

  lemma DropsCallback(f: Forest, x: AsyncOperation)
    requires x in f
    ensures EvolvedBut(f, f[x := f[x].(callback := false)], x) && (Unlisted(f, x) ==> Unlisted(f[x := f[x].(callback := false)], x))
  {
    EvolvedUpdate(f, x, f[x].(callback := false));
  }

  lemma DetachSelf(f: Forest, x: AsyncOperation)
    requires x in f && f[x].children == []
    ensures x in Detached(f, x) && Detached(f, x)[x] == f[x] && Unlisted(Detached(f, x), x)
  {
  }

  lemma DetachEvolves(f: Forest, x: AsyncOperation)
    requires Ok(f) && x in f && Stage(f[x].view.life) >= 3 && f[x].children == []
    ensures Evolved(f, Detached(f, x))
  {
    EvolvedReflexive(f, null);
    if x.parent != null && x.parent in f {
      var p: AsyncOperation := x.parent;
      var b := f[p].(children := Remaining(f, f[p].children, x));
      NoneLeft(f[p].children, b.children);
      OkMeans(f, p);
      EvolvedUpdate(f, p, b);
      EvolvedExcept(f, f[p := b], p);
    }
  }

  lemma CancelEvolves(f: Forest, x: AsyncOperation, force: bool)
    requires Ok(f)
    ensures Evolved(f, AfterCancel(f, x, force))
    ensures x in f ==> x in AfterCancel(f, x, force) && AfterCancel(f, x, force)[x].view.cancelled
    decreases Potential(f), 0, 1
  {
    hide Ok, EvolvedBut, Potential, LaterShot, AfterCancel;
    EvolvedReflexive(f, null);
    if x in f { CancelUnfolds(f, x, force); } else { NothingToCancel(f, x, force); }
    if x in f && !f[x].view.cancelled { SweepEvolves(f, x, force); }
  }

  lemma NothingToCancel(f: Forest, x: AsyncOperation, force: bool)
    requires x !in f
    ensures AfterCancel(f, x, force) == f
  {
  }

  /** TryMarkCancelRequested and the sweep. */
  lemma MarkSteps(f: Forest, x: AsyncOperation)
    requires Ok(f) && x in f && !f[x].view.cancelled
    ensures var h := f[x := Marked(f[x])];
            && Later(f, h) && Ok(h) && Potential(h) < Potential(f)
            && h[x] == f[x].(view := f[x].view.(cancelled := true), children := [])
            && forall c :: c in Live(f, f[x].children) ==> c in h
  {
    OkMeans(f, x);
    LaterUpdate(f, x, Marked(f[x]));
    hide Potential, Ok, LaterShot;
    LaterShrinks(f, f[x := Marked(f[x])], x);
    OkLater(f, f[x := Marked(f[x])]);
  }

  /** A cancel that marks: every live child has been cancelled when it is over. */
  lemma SweepEvolves(f: Forest, x: AsyncOperation, force: bool)
    requires Ok(f) && x in f && !f[x].view.cancelled
    ensures var g := AfterCancel(f, x, force);
            && Evolved(f, g) && x in g && g[x].view.cancelled && (force && f[x].view.life != Created ==> Stage(g[x].view.life) >= 2)
            && forall c :: c in f[x].children && !Expired(f, c) ==> c in g && g[c].view.cancelled
    decreases Potential(f), 0, 0
  {
    hide Ok, EvolvedBut, Potential, LaterShot, Later, AfterCancel, AfterCancelAll, AfterEnd, Live, Marked, Expired;
    var h := f[x := Marked(f[x])];
    var found := Live(f, f[x].children);
    CancelUnfolds(f, x, force);
    MarkSteps(f, x);
    var i := AfterCancelAll(h, found);
    CancelAllEvolves(h, found);
    LaterShrinks(h, i, null);
    OkLater(h, i);
    LaterAt(h, i, x);
    EndOfSweep(f, x, force, i, found);
    CancelComposes(f, x, force, h, i, AfterEnd(i, x, force));
  }

  lemma EndOfSweep(f: Forest, x: AsyncOperation, force: bool, i: Forest, found: seq<AsyncOperation>)
    requires Ok(i) && x in f && x in i && i[x].children == [] && Precedes(f[x].view, i[x].view)
    requires forall c :: c in found ==> c in i && i[c].view.cancelled
    ensures var g := AfterEnd(i, x, force);
            && EvolvedBut(i, g, x) && x in g && (i[x].view.cancelled ==> g[x].view.cancelled)
            && (force && f[x].view.life != Created ==> Stage(g[x].view.life) >= 2)
            && (forall c :: c in found ==> c in g && g[c].view.cancelled)
            && (if i[x].view.life == Started && (force || !x.skip) then Finished(i, g, x, OPERATION_CANCELED) else Evolved(i, g))
    decreases Potential(i), 6, 0
  {
    hide Ok, EvolvedBut, Potential, LaterShot, Later, AfterEnd;
    var g := AfterEnd(i, x, force);
    EndEvolves(i, x, force);
    LaterOf(i, g, x);
    LaterAt(i, g, x);
    FoundStayCancelled(i, g, found);
  }

  lemma FoundStayCancelled(f: Forest, g: Forest, found: seq<AsyncOperation>)
    requires Later(f, g) && forall c :: c in found ==> c in f && f[c].view.cancelled
    ensures forall c :: c in found ==> c in g && g[c].view.cancelled
  {
    forall c | c in found ensures c in g && g[c].view.cancelled { LaterAt(f, g, c); }
  }

  lemma CancelAllEvolves(f: Forest, found: seq<AsyncOperation>)
    requires Ok(f) && forall c :: c in found ==> c in f
    ensures Evolved(f, AfterCancelAll(f, found))
    ensures forall c :: c in found ==> c in AfterCancelAll(f, found) && AfterCancelAll(f, found)[c].view.cancelled
    decreases Potential(f), 2, |found|
  {
    hide Ok, EvolvedBut, Potential, LaterShot, AfterCancelAll, AfterCancel;
    CancelAllUnfolds(f, found);
    EvolvedReflexive(f, null);
    if found != [] {
      var h := AfterCancel(f, found[0], false);
      CancelEvolves(f, found[0], false);
      LaterOf(f, h, null);
      OkLater(f, h);
      LaterShrinks(f, h, null);
      CancelAllEvolves(h, found[1..]);
      var g := AfterCancelAll(h, found[1..]);
      EvolvedTransitive(f, h, g, null);
      LaterAt(h, g, found[0]);
      assert forall c :: c in found ==> c == found[0] || c in found[1..];
    }
  }

  /** Complete or signal: the end of a Cancel either leaves the operation alone or
      takes it from Started to Completed. */
  lemma EndEvolves(f: Forest, x: AsyncOperation, force: bool)
    requires Ok(f) && x in f && f[x].children == []
    ensures var g := AfterEnd(f, x, force);
            && EvolvedBut(f, g, x) && x in g
            && (if f[x].view.life == Started && (force || !x.skip) then Finished(f, g, x, OPERATION_CANCELED) else Evolved(f, g))
    decreases Potential(f), 5, 0
  {
    hide Ok, EvolvedBut, Potential, LaterShot, AfterEnd, AfterHook, AfterFinish, Claimed;
    EvolvedReflexive(f, null);
    EvolvedReflexive(f, x);
    EndUnfolds(f, x, force);
    var g := AfterEnd(f, x, force);
    if !force && x.skip {
      HookEvolves(f, x.onCancel);
      EvolvedForgets(f, g, x);
    } else if f[x].view.life == Started {
      var h := f[x := Claimed(f[x])];
      ClaimSteps(f, x);
      var i := AfterHook(h, x.onCancel);
      HookEvolves(h, x.onCancel);
      HookSteps(h, x, x.onCancel);
      StepsCompose(f, x, h, i);
      FinishEvolves(i, x, OPERATION_CANCELED);
      EvolvedTransitive(f, i, g, x);
    }
  }

  /** Cancel: f is marked and swept to h, the children are cancelled by i, and then
      the operation is signalled, found completing, or completed. */
  lemma CancelComposes(f: Forest, x: AsyncOperation, force: bool, h: Forest, i: Forest, g: Forest)
    requires Ok(f) && x in f && !f[x].view.cancelled && h == f[x := Marked(f[x])]
    requires Evolved(h, i) && x in i && EvolvedBut(i, g, x) && x in g
    requires forall c :: c in f[x].children && !Expired(f, c) ==> c in g && g[c].view.cancelled
    requires if i[x].view.life == Started && (force || !x.skip) then Finished(i, g, x, OPERATION_CANCELED) else Evolved(i, g)
    ensures Evolved(f, g)
  {
    hide EvolvedBut, LaterShot, Later, Accounts, Detaches, Unlisted, Settles, Expired, Ok, Marked, Finished, Potential;
    MarkSteps(f, x);
    LaterOf(h, i, null);
    LaterOf(i, g, x);
    LaterTransitive(h, i, g);
    LaterTransitive(f, h, g);
    EvolvedForgets(h, i, x);
    EvolvedTransitive(h, i, g, x);
    SweptAreAccounted(f, x, g);
    OthersSettle(f, x, h, g);
    HeadSettles(f, x, force, h, i, g);
    OthersDetach(f, x, h, g);
    HeadDetaches(f, x, force, h, i, g);
    EvolvedFrom(f, g, x);
  }

  lemma HeadSettles(f: Forest, x: AsyncOperation, force: bool, h: Forest, i: Forest, g: Forest)
    requires x in f && !f[x].view.cancelled && h == f[x := Marked(f[x])]
    requires Evolved(h, i) && x in i && Later(i, g) && x in g
    requires if i[x].view.life == Started && (force || !x.skip) then Finished(i, g, x, OPERATION_CANCELED) else Evolved(i, g)
    ensures Settles(x, f[x], g[x])
  {
    var completed := i[x].view.life == Started && (force || !x.skip);
    hide EvolvedBut, LaterShot, Later, Settles, Marked;
    LaterOf(h, i, null);
    LaterAt(h, i, x);
    LaterAt(i, g, x);
    EvolvedAt(h, i, null, x);
    if !completed { EvolvedAt(i, g, null, x); }
    CancelSettles(x, f[x], i[x], g[x], completed);
  }

  lemma CancelSettles(x: AsyncOperation, a: Shot, b: Shot, c: Shot, completed: bool)
    requires !a.view.cancelled && LaterShot(Marked(a), b) && Settles(x, Marked(a), b) && LaterShot(b, c)
    requires completed ==>
               && b.view.life == Started && c.view.life == Completed && c.children == []
               && !c.callback && c.fired == b.fired + (if b.callback then 1 else 0)
    requires !completed ==> Settles(x, b, c) && (b.view.life != Started || x.skip)
    ensures Settles(x, a, c)
  {
    NoneLeft(b.children, c.children);
  }

  lemma EvolvedFrom(f: Forest, g: Forest, x: AsyncOperation)
    requires Later(f, g) && Accounts(f, g) && forall o :: o in f ==> Settles(o, f[o], g[o])
    requires Detaches(f, g, x) && x in f && (Stage(f[x].view.life) < 2 <= Stage(g[x].view.life) ==> Unlisted(g, x))
    ensures Evolved(f, g)
  {
  }

  lemma HeadDetaches(f: Forest, x: AsyncOperation, force: bool, h: Forest, i: Forest, g: Forest)
    requires x in f && !f[x].view.cancelled && h == f[x := Marked(f[x])]
    requires Evolved(h, i) && x in i && Later(i, g) && x in g
    requires if i[x].view.life == Started && (force || !x.skip) then Finished(i, g, x, OPERATION_CANCELED) else Evolved(i, g)
    ensures Stage(f[x].view.life) < 2 <= Stage(g[x].view.life) ==> Unlisted(g, x)
  {
    var completed := i[x].view.life == Started && (force || !x.skip);
    hide LaterShot, Later, Accounts, Settles, Unlisted;
    if !completed && Stage(i[x].view.life) >= 2 && Unlisted(i, x) { UnlistedLater(i, g, x); }
  }

  lemma OthersDetach(f: Forest, x: AsyncOperation, h: Forest, g: Forest)
    requires x in f && h == f[x := Marked(f[x])] && EvolvedBut(h, g, x)
    ensures Detaches(f, g, x)
  {
    forall o | o in f && o != x ensures h[o] == f[o] { }
  }

  lemma SweptAreAccounted(f: Forest, x: AsyncOperation, g: Forest)
    requires Ok(f) && x in f && EvolvedBut(f[x := Marked(f[x])], g, x) && Later(f, g)
    requires forall c :: c in f[x].children && !Expired(f, c) ==> c in g && g[c].view.cancelled
    ensures Accounts(f, g)
  {
    var h := f[x := Marked(f[x])];
    OkMeans(f, x);
    forall o, c | o in f && o in g && c in f[o].children ensures c in g[o].children || Accounted(g, o, c) {
      if o == x {
        LaterAt(f, g, c);
      } else {
        assert c in h[o].children;
      }
    }
  }

  lemma OthersSettle(f: Forest, x: AsyncOperation, h: Forest, g: Forest)
    requires x in f && h == f[x := Marked(f[x])] && EvolvedBut(h, g, x)
    ensures forall o :: o in f && o != x ==> Settles(o, f[o], g[o])
  {
    forall o | o in f && o != x ensures Settles(o, f[o], g[o]) { assert h[o] == f[o]; }
  }

  // ---------------------------------------------------------------- OnStart

  ghost predicate Completes(actions: seq<Action>, x: AsyncOperation) {
    exists i :: 0 <= i < |actions| && actions[i].CompleteIt? && actions[i].target == x
  }

  /** x has completed, called back once, and let go of its callback, children and parent. */
  ghost predicate Over(f: Forest, x: AsyncOperation) {
    && x in f && Stage(f[x].view.life) >= 3 && f[x].fired == 1 && !f[x].callback && f[x].children == []
    && Unlisted(f, x)
  }

  ghost predicate Running(f: Forest, x: AsyncOperation) {
    x in f && f[x].view.life == Started && f[x].fired == 0 && f[x].callback
  }

  lemma RunsUntilOver(f: Forest, g: Forest, x: AsyncOperation)
    requires Evolved(f, g) && (Running(f, x) || Over(f, x))
    ensures (Running(g, x) || Over(g, x)) && (Over(f, x) ==> Over(g, x))
  {
    LaterAt(f, g, x);
    EvolvedAt(f, g, null, x);
    if Over(f, x) { UnlistedLater(f, g, x); }
  }

  lemma TryCompleteEnds(f: Forest, x: AsyncOperation, error: Value)
    requires Ok(f) && Running(f, x)
    ensures Over(AfterTryComplete(f, x, error), x)
  {
    TryCompleteEvolves(f, x, error);
    RunsUntilOver(f, AfterTryComplete(f, x, error), x);
    ClaimSteps(f, x);
    hide Ok, EvolvedBut, AfterTryComplete, AfterFinish, Claimed, Potential;
    TryCompleteUnfolds(f, x, error);
    FinishEvolves(f[x := Claimed(f[x])], x, error);
  }

  lemma {:induction false} HookCompletes(f: Forest, x: AsyncOperation, actions: seq<Action>)
    requires Ok(f) && (Over(f, x) || (Running(f, x) && Completes(actions, x)))
    ensures Over(AfterHook(f, actions), x)
    decreases |actions|
  {
    hide Ok, EvolvedBut, Over, Running, AfterHook, AfterAction, Later;
    HookUnfolds(f, actions);
    if actions != [] {
      var g := AfterAction(f, actions[0]);
      ActionEvolves(f, actions[0]);
      RunsUntilOver(f, g, x);
      OkLater(f, g);
      if !Over(g, x) { CompletesLater(f, x, actions); }
      HookCompletes(g, x, actions[1..]);
    }
  }

  lemma CompletesLater(f: Forest, x: AsyncOperation, actions: seq<Action>)
    requires Ok(f) && Running(f, x) && Completes(actions, x) && !Over(AfterAction(f, actions[0]), x)
    ensures Completes(actions[1..], x)
  {
    var i :| 0 <= i < |actions| && actions[i].CompleteIt? && actions[i].target == x;
    if i == 0 {
      TryCompleteEnds(f, x, actions[0].error);
      assert false;
    }
    assert actions[1..][i - 1] == actions[i];
  }

  /** An operation that OnStart completes, whatever else OnStart and the other hooks do,
      is completed when Start returns: it has called back once and is let go of. */
  lemma CompletesInStart(f: Forest, x: AsyncOperation)
    requires Ok(f) && x in f && f[x] == NEW && Completes(x.onStart, x)
    ensures Over(AfterStart(f, x), x)
  {
    OkMeans(f, x);
    EntersRunning(f, x);
    hide AfterHook, Ok, Over, Running, Completes, Entered;
    HookCompletes(Entered(f, x), x, x.onStart);
  }

  lemma EntersRunning(f: Forest, x: AsyncOperation)
    requires Ok(f) && x in f && f[x] == NEW && (x.parent != null ==> x.parent in f)
    ensures Ok(Entered(f, x)) && Running(Entered(f, x), x)
  {
  }

  /** What Start has done by the time it calls OnStart. */
  ghost predicate StartedUnder(h: Forest, x: AsyncOperation, p: AsyncOperation) {
    x in h && p in h && x in h[p].children && h[x].view.life == Started && !h[x].expired
  }

  /** x still hangs from p and p is not cancelled, or x was cancelled, completed or
      discarded by the Cleanup of p. */
  ghost predicate Followed(g: Forest, x: AsyncOperation, p: AsyncOperation) {
    && x in g && p in g
    && (x in g[p].children || g[x].view.cancelled || Stage(g[x].view.life) >= 3 || x in g[p].dropped)
    && (g[p].view.cancelled || Stage(g[p].view.life) >= 3 ==> x !in g[p].children)
  }

  lemma HookIsFollowed(h: Forest, g: Forest, x: AsyncOperation, p: AsyncOperation)
    requires StartedUnder(h, x, p) && Evolved(h, g) && Tidy(h) && Stage(h[p].view.life) < 2
    ensures Followed(g, x, p)
  {
    LaterAt(h, g, x);
    LaterAt(h, g, p);
    EvolvedAt(h, g, null, p);
    TidyLater(h, g);
  }

  lemma AttachesBeforeOnStart(f: Forest, x: AsyncOperation, p: AsyncOperation)
    requires Ok(f) && Tidy(f) && x in f && f[x] == NEW && x.parent == p && p != x && p in f
    requires Stage(f[p].view.life) < 2 && !f[p].view.cancelled
    ensures var h := Entered(f, x);
            && Ok(h) && Tidy(h) && StartedUnder(h, x, p) && Stage(h[p].view.life) < 2 && !h[p].view.cancelled
            && AfterStart(f, x) == AfterHook(h, x.onStart)
  {
    EntersRunning(f, x);
    hide AfterHook, Ok;
  }

  /** An operation is in its parent's list before OnStart runs: whatever OnStart does to
      the parent, and whatever the hooks do, the new operation is still there when
      Start returns or has been cancelled, completed or discarded with it. */
  lemma StartIsFollowed(f: Forest, x: AsyncOperation, p: AsyncOperation)
    requires Ok(f) && Tidy(f) && x in f && f[x] == NEW && x.parent == p && p != x && p in f
    requires Stage(f[p].view.life) < 2 && !f[p].view.cancelled
    ensures Followed(AfterStart(f, x), x, p)
  {
    hide *;
    AttachesBeforeOnStart(f, x, p);
    HookEvolves(Entered(f, x), x.onStart);
    HookIsFollowed(Entered(f, x), AfterHook(Entered(f, x), x.onStart), x, p);
  }

  ghost predicate Cancels(actions: seq<Action>, x: AsyncOperation) {
    exists i :: 0 <= i < |actions| && actions[i].CancelIt? && actions[i].target == x
  }

  lemma {:induction false} HookCancels(f: Forest, p: AsyncOperation, actions: seq<Action>)
    requires Ok(f) && p in f && (Cancels(actions, p) || f[p].view.cancelled)
    ensures p in AfterHook(f, actions) && AfterHook(f, actions)[p].view.cancelled
    decreases |actions|
  {
    hide Ok, EvolvedBut, AfterHook, AfterCancel, AfterTryComplete, Later;
    HookUnfolds(f, actions);
    if actions != [] {
      var g := AfterAction(f, actions[0]);
      ActionEvolves(f, actions[0]);
      LaterOf(f, g, null);
      LaterAt(f, g, p);
      OkLater(f, g);
      if actions[0].CancelIt? && actions[0].target == p {
        CancelEvolves(f, p, actions[0].force);
      } else {
        assert Cancels(actions, p) ==> Cancels(actions[1..], p) by { CancelsLater(actions, p); }
      }
      HookCancels(g, p, actions[1..]);
    }
  }

  lemma CancelsLater(actions: seq<Action>, p: AsyncOperation)
    requires actions != [] && !(actions[0].CancelIt? && actions[0].target == p)
    ensures Cancels(actions, p) ==> Cancels(actions[1..], p)
  {
    if Cancels(actions, p) {
      var i :| 0 <= i < |actions| && actions[i].CancelIt? && actions[i].target == p;
      assert actions[1..][i - 1] == actions[i];
    }
  }

  /** So an OnStart that cancels the parent takes the new operation along. */
  lemma OnStartCancelsParent(f: Forest, x: AsyncOperation, p: AsyncOperation)
    requires Ok(f) && Tidy(f) && x in f && f[x] == NEW && x.parent == p && p != x && p in f
    requires Stage(f[p].view.life) < 2 && !f[p].view.cancelled && Cancels(x.onStart, p)
    ensures var g := AfterStart(f, x);
            p in g && x in g && g[p].view.cancelled && (g[x].view.cancelled || Stage(g[x].view.life) >= 3 || x in g[p].dropped)
  {
    StartIsFollowed(f, x, p);
    hide AfterHook, AfterStart, Ok, Tidy, Begun, Attached, Cancels, Entered, EvolvedBut;
    AttachesBeforeOnStart(f, x, p);
    HookCancels(Entered(f, x), p, x.onStart);
  }

  /** And if that is the first thing OnStart does, nothing can come before: the new
      operation is cancelled. */
  lemma OnStartCancelsFirst(f: Forest, x: AsyncOperation, p: AsyncOperation, force: bool)
    requires Ok(f) && Tidy(f) && x in f && f[x] == NEW && x.parent == p && p != x && p in f
    requires Stage(f[p].view.life) < 2 && !f[p].view.cancelled && x.onStart != [] && x.onStart[0] == CancelIt(p, force)
    ensures x in AfterStart(f, x) && AfterStart(f, x)[x].view.cancelled
  {
    hide *;
    AttachesBeforeOnStart(f, x, p);
    FirstCancelTakes(Entered(f, x), x, p, x.onStart, force);
  }

  lemma FirstCancelTakes(h: Forest, x: AsyncOperation, p: AsyncOperation, actions: seq<Action>, force: bool)
    requires Ok(h) && StartedUnder(h, x, p) && !h[p].view.cancelled && actions != [] && actions[0] == CancelIt(p, force)
    ensures x in AfterHook(h, actions) && AfterHook(h, actions)[x].view.cancelled
  {
    var i := AfterCancel(h, p, force);
    assert x in h[p].children && !Expired(h, x) && AfterAction(h, actions[0]) == i;
    hide AfterHook, AfterAction, AfterCancel, Ok, Tidy, EvolvedBut, Later, Expired;
    HookUnfolds(h, actions);
    SweepEvolves(h, p, force);
    CancelledLater(i, AfterHook(i, actions[1..]), x);
  }

  lemma CancelledLater(f: Forest, g: Forest, x: AsyncOperation)
    requires x in f && f[x].view.cancelled && Later(f, g)
    ensures x in g && g[x].view.cancelled
  {
    LaterAt(f, g, x);
  }
}
