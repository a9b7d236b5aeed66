/** How far recursive cancellation reaches in a forest of any shape, with hooks that
    call back into it. */
module CancelReach {
  import opened LifecycleWord
  import opened ErrorCodes
  import opened CancelTree
  import opened CancelEffects

  // ---------------------------------------------------------------- whole trees

  /** A path from an operation down through its attached, live children. */
  ghost predicate Path(f: Forest, path: seq<AsyncOperation>) {
    && path != [] && path[0] in f
    && (|path| > 1 ==>
          path[1] in f && path[1] in f[path[0]].children && !f[path[1]].expired && Path(f, path[1..]))
  }

  ghost predicate PathFrom(f: Forest, h: AsyncOperation, path: seq<AsyncOperation>) {
    Path(f, path) && path[0] == h
  }

  ghost predicate Settled(a: Shot) {
    a.view.cancelled || Stage(a.view.life) >= 3
  }

  /** A path along which no Cleanup has discarded a child. */
  ghost predicate Undropped(g: Forest, path: seq<AsyncOperation>) {
    |path| > 1 ==> path[0] in g && path[1] !in g[path[0]].dropped && Undropped(g, path[1..])
  }

  /** Cancelled or completed by now; and completed, if it was started, uncancelled
      and does not treat cancel as a mere signal. */
  ghost predicate Reached(o: AsyncOperation, f: Forest, g: Forest) {
    && o in f && o in g && Settled(g[o])
    && (f[o].view.life != Created && !f[o].view.cancelled && !o.skip ==> Stage(g[o].view.life) >= 3)
  }

  lemma QuiescentStays(f: Forest, g: Forest)
    requires Quiescent(f) && Evolved(f, g)
    ensures Quiescent(g)
  {
    forall o | o in g && Stage(g[o].view.life) >= 2 ensures Stage(g[o].view.life) >= 3 && g[o].children == [] {
      LaterAt(f, g, o);
      EvolvedAt(f, g, null, o);
    }
  }

  lemma SettledIsReached(f: Forest, g: Forest, o: AsyncOperation)
    requires Quiescent(g) && Evolved(f, g) && o in f && o in g && Settled(g[o])
    ensures Reached(o, f, g)
  {
    LaterAt(f, g, o);
    EvolvedAt(f, g, null, o);
  }

  /** A child that has left the list of its parent was cancelled, completed or discarded. */
  lemma ChildIsSettled(f: Forest, g: Forest, x: AsyncOperation, y: AsyncOperation)
    requires Evolved(f, g) && Tidy(g) && Quiescent(g)
    requires x in f && y in f && y in f[x].children && !f[y].expired
    requires x in g && Settled(g[x]) && y !in g[x].dropped
    ensures y in g && Settled(g[y])
  {
    assert g[x].children == [];
    LaterAt(f, g, y);
    assert Accounted(g, x, y);
  }

  /** f is quiescent and g is what Cancel left of it: every live operation below the
      head is reached, unless a Cleanup discarded it or one above it. */
  lemma {:induction false} CancelReaches(f: Forest, g: Forest, path: seq<AsyncOperation>)
    requires Quiescent(g) && Evolved(f, g) && Tidy(g)
    requires Path(f, path) && Undropped(g, path) && path[0] in g && Settled(g[path[0]])
    ensures forall o :: o in path ==> Reached(o, f, g)
    decreases |path|
  {
    hide Tidy, Quiescent, EvolvedBut, Settled, Reached;
    SettledIsReached(f, g, path[0]);
    if |path| > 1 {
      ChildIsSettled(f, g, path[0], path[1]);
      CancelReaches(f, g, path[1..]);
    }
  }

  // ---------------------------------------------------------------- hooks that discard nothing

  type Need = map<AsyncOperation, set<AsyncOperation>>

  /** The hook of o completes only o itself, operations that are cancelled by the
      time anything happens to o, and operations outside `kept`; and whatever has to
      be cancelled before something happens to a target is o, or had to be
      cancelled before something happened to o. */
  ghost predicate Obeys(actions: seq<Action>, o: AsyncOperation, kept: set<AsyncOperation>, need: Need)
    requires o in need
  {
    forall i :: 0 <= i < |actions| ==>
      var a := actions[i];
      && a.target in need && need[a.target] <= need[o] + {o}
      && (a.CompleteIt? ==> a.target == o || a.target in need[o] || a.target !in kept)
  }

  /** need[o] are the operations that have to be cancelled before anything happens
      to o: everything that could happen, through hooks and child lists, keeps to it. */
  ghost predicate Guarded(f: Forest, kept: set<AsyncOperation>, need: Need) {
    forall o :: o in f ==>
      && o in need
      && (forall c :: c in f[o].children ==> c in need && need[c] <= need[o] + {o})
      && Obeys(o.onCancel, o, kept, need) && Obeys(o.onCompleted, o, kept, need) && Obeys(o.onDone, o, kept, need)
  }

  ghost predicate Swept(f: Forest, o: AsyncOperation) {
    o in f && f[o].view.cancelled && f[o].children == []
  }

  ghost predicate Ready(f: Forest, o: AsyncOperation, kept: set<AsyncOperation>, need: Need) {
    o in need && forall t :: t in need[o] && t in kept ==> Swept(f, t)
  }

  ghost predicate MayRun(f: Forest, o: AsyncOperation, kept: set<AsyncOperation>, need: Need) {
    Ready(f, o, kept, need) && (o in kept ==> Swept(f, o))
  }

  ghost predicate Spares(f: Forest, g: Forest, kept: set<AsyncOperation>) {
    forall o :: o in f && o in kept ==> o in g && g[o].dropped == f[o].dropped
  }

  lemma SparesTransitive(f: Forest, g: Forest, h: Forest, kept: set<AsyncOperation>)
    requires Spares(f, g, kept) && Spares(g, h, kept)
    ensures Spares(f, h, kept)
  {
  }

  lemma SparesReflexive(f: Forest, kept: set<AsyncOperation>)
    ensures Spares(f, f, kept)
  {
  }

  lemma SweptLater(f: Forest, g: Forest, o: AsyncOperation)
    requires Later(f, g) && Swept(f, o)
    ensures Swept(g, o)
  {
    LaterAt(f, g, o);
  }

  lemma GuardLater(f: Forest, g: Forest, kept: set<AsyncOperation>, need: Need)
    requires Later(f, g) && Guarded(f, kept, need)
    ensures Guarded(g, kept, need)
  {
    forall o | o in g ensures forall c :: c in g[o].children ==> c in f[o].children { assert LaterShot(f[o], g[o]); }
  }

  lemma ReadyLater(f: Forest, g: Forest, o: AsyncOperation, kept: set<AsyncOperation>, need: Need)
    requires Later(f, g) && Ready(f, o, kept, need)
    ensures Ready(g, o, kept, need)
  {
    forall t | t in need[o] && t in kept ensures Swept(g, t) { SweptLater(f, g, t); }
  }

  lemma MayRunLater(f: Forest, g: Forest, o: AsyncOperation, kept: set<AsyncOperation>, need: Need)
    requires Later(f, g) && MayRun(f, o, kept, need)
    ensures MayRun(g, o, kept, need)
  {
    ReadyLater(f, g, o, kept, need);
    if o in kept { SweptLater(f, g, o); }
  }

  lemma GuardAt(f: Forest, o: AsyncOperation, kept: set<AsyncOperation>, need: Need)
    requires Guarded(f, kept, need) && o in f && MayRun(f, o, kept, need)
    ensures o in need && Obeys(o.onCancel, o, kept, need) && Obeys(o.onCompleted, o, kept, need) && Obeys(o.onDone, o, kept, need)
  {
  }

  lemma HookSpares(f: Forest, o: AsyncOperation, actions: seq<Action>, kept: set<AsyncOperation>, need: Need)
    requires Guarded(f, kept, need) && MayRun(f, o, kept, need) && Obeys(actions, o, kept, need)
    ensures Spares(f, AfterHook(f, actions), kept)
    decreases Potential(f), 2, |actions|
  {
    HookUnfolds(f, actions);
    if actions != [] {
      var g := AfterAction(f, actions[0]);
      assert Obeys(actions[1..], o, kept, need);
      TargetReady(f, o, actions[0], kept, need);
      hide Guarded, MayRun, Ready, Obeys, Potential, Spares, AfterHook, AfterAction, Later;
      ActionSpares(f, actions[0], kept, need);
      GuardLater(f, g, kept, need);
      MayRunLater(f, g, o, kept, need);
      LaterShrinks(f, g, null);
      HookSpares(g, o, actions[1..], kept, need);
      SparesTransitive(f, g, AfterHook(g, actions[1..]), kept);
    }
  }

  lemma TargetReady(f: Forest, o: AsyncOperation, a: Action, kept: set<AsyncOperation>, need: Need)
    requires MayRun(f, o, kept, need) && a.target in need && need[a.target] <= need[o] + {o}
    requires a.CompleteIt? ==> a.target == o || a.target in need[o] || a.target !in kept
    ensures if a.CompleteIt? then MayRun(f, a.target, kept, need) else Ready(f, a.target, kept, need)
  {
  }

  lemma ActionSpares(f: Forest, a: Action, kept: set<AsyncOperation>, need: Need)
    requires Guarded(f, kept, need)
    requires if a.CompleteIt? then MayRun(f, a.target, kept, need) else Ready(f, a.target, kept, need)
    ensures Spares(f, AfterAction(f, a), kept)
    decreases Potential(f), 1, 0
  {
    hide Guarded, MayRun, Ready, Potential, Spares, AfterTryComplete, AfterCancel;
    match a
    case CompleteIt(target, error) => TryCompleteSpares(f, target, error, kept, need);
    case CancelIt(target, force) => CancelSpares(f, target, force, kept, need);
  }

  lemma TryCompleteSpares(f: Forest, x: AsyncOperation, error: Value, kept: set<AsyncOperation>, need: Need)
    requires Guarded(f, kept, need) && MayRun(f, x, kept, need)
    ensures Spares(f, AfterTryComplete(f, x, error), kept)
    decreases Potential(f), 0, 0
  {
    hide *;
    if x in f { TryCompleteUnfolds(f, x, error); } else { NothingToComplete(f, x, error); }
    SparesReflexive(f, kept);
    if x in f && f[x].view.life == Started {
      var h := f[x := Claimed(f[x])];
      ClaimSpares(f, x, kept);
      ClaimShrinks(f, x);
      GuardLater(f, h, kept, need);
      MayRunLater(f, h, x, kept, need);
      FinishSpares(h, x, error, kept, need);
      SparesTransitive(f, h, AfterFinish(h, x, error), kept);
    }
  }

  lemma ClaimShrinks(f: Forest, x: AsyncOperation)
    requires x in f && f[x].view.life == Started
    ensures Potential(f[x := Claimed(f[x])]) < Potential(f)
  {
    ClaimSteps(f, x);
  }

  lemma PublishSpares(f: Forest, x: AsyncOperation, error: Value, kept: set<AsyncOperation>)
    requires x in f
    ensures var h: Forest := f[x := Published(f[x], error)]; Later(f, h) && Spares(f, h, kept)
  {
    LaterUpdate(f, x, Published(f[x], error));
  }

  lemma FinishSpares(f: Forest, x: AsyncOperation, error: Value, kept: set<AsyncOperation>, need: Need)
    requires x in f && Stage(f[x].view.life) >= 2 && Guarded(f, kept, need) && MayRun(f, x, kept, need)
    ensures Spares(f, AfterFinish(f, x, error), kept)
    decreases Potential(f), 4, 0
  {
    hide *;
    FinishUnfolds(f, x, error);
    PublishSpares(f, x, error, kept);
    var h: Forest := f[x := Published(f[x], error)];
    GuardLater(f, h, kept, need);
    MayRunLater(f, h, x, kept, need);
    GuardAt(h, x, kept, need);
    LaterShrinks(f, h, null);
    HookSpares(h, x, x.onCompleted, kept, need);
    var i := AfterHook(h, x.onCompleted);
    GuardLater(h, i, kept, need);
    MayRunLater(h, i, x, kept, need);
    LaterShrinks(h, i, null);
    SparesTransitive(f, h, i, kept);
    CallbackAndCleanupSpare(f, i, x, kept, need);
  }

  lemma CallbackAndCleanupSpare(f: Forest, i: Forest, x: AsyncOperation, kept: set<AsyncOperation>, need: Need)
    requires x in i && Guarded(i, kept, need) && MayRun(i, x, kept, need) && Spares(f, i, kept) && Potential(i) <= Potential(f)
    requires x in AfterCallback(i, x) && Stage(AfterCallback(i, x)[x].view.life) >= 3
    ensures Spares(f, AfterCleanup(AfterCallback(i, x), x), kept)
    decreases Potential(f), 3, 1
  {
    hide *;
    CallbackSpares(i, x, kept, need);
    var j := AfterCallback(i, x);
    MayRunLater(i, j, x, kept, need);
    CleanupSpares(j, x, kept, need);
    SparesTransitive(f, i, j, kept);
    SparesTransitive(f, j, AfterCleanup(j, x), kept);
  }

  lemma CallbackSpares(f: Forest, x: AsyncOperation, kept: set<AsyncOperation>, need: Need)
    requires x in f && Guarded(f, kept, need) && MayRun(f, x, kept, need)
    ensures Spares(f, AfterCallback(f, x), kept)
    decreases Potential(f), 3, 0
  {
    hide *;
    CallbackUnfolds(f, x);
    SparesReflexive(f, kept);
    if f[x].callback {
      var h := f[x := f[x].(fired := f[x].fired + 1)];
      FiringSpares(f, x, kept);
      GuardLater(f, h, kept, need);
      MayRunLater(f, h, x, kept, need);
      LaterShrinks(f, h, null);
      GuardAt(h, x, kept, need);
      HookSpares(h, x, x.onDone, kept, need);
      SparesTransitive(f, h, AfterHook(h, x.onDone), kept);
    }
  }

  lemma FiringSpares(f: Forest, x: AsyncOperation, kept: set<AsyncOperation>)
    requires x in f
    ensures var h := f[x := f[x].(fired := f[x].fired + 1)]; Later(f, h) && Spares(f, h, kept)
  {
    LaterUpdate(f, x, f[x].(fired := f[x].fired + 1));
  }

  lemma MarkSpares(f: Forest, x: AsyncOperation, kept: set<AsyncOperation>)
    requires x in f && !f[x].view.cancelled
    ensures var h := f[x := Marked(f[x])]; Later(f, h) && Spares(f, h, kept) && Swept(h, x) && h[x].view.cancelled
  {
    LaterUpdate(f, x, Marked(f[x]));
  }

  lemma ClaimSpares(f: Forest, x: AsyncOperation, kept: set<AsyncOperation>)
    requires x in f && f[x].view.life == Started
    ensures var h := f[x := Claimed(f[x])]; Later(f, h) && Spares(f, h, kept) && Stage(h[x].view.life) >= 2
  {
    LaterUpdate(f, x, Claimed(f[x]));
  }

  /** Cleanup of an operation that has been swept discards nothing. */
  lemma CleanupSpares(f: Forest, x: AsyncOperation, kept: set<AsyncOperation>, need: Need)
    requires x in f && Stage(f[x].view.life) >= 3 && MayRun(f, x, kept, need)
    ensures Spares(f, AfterCleanup(f, x), kept)
  {
    hide AfterCleanup, Detached;
    CleanupUnfolds(f, x);
    DetachDropsNothing(f[x := Dropped(f[x])], x);
    assert x in kept ==> Dropped(f[x]).dropped == f[x].dropped;
  }

  lemma DetachDropsNothing(f: Forest, x: AsyncOperation)
    ensures Detached(f, x).Keys == f.Keys && forall o :: o in f ==> Detached(f, x)[o].dropped == f[o].dropped
  {
    hide Remaining;
  }

  lemma CancelSpares(f: Forest, x: AsyncOperation, force: bool, kept: set<AsyncOperation>, need: Need)
    requires Guarded(f, kept, need) && Ready(f, x, kept, need)
    ensures Spares(f, AfterCancel(f, x, force), kept)
    decreases Potential(f), 0, 0
  {
    hide *;
    if x in f { CancelUnfolds(f, x, force); } else { NothingToCancel(f, x, force); }
    SparesReflexive(f, kept);
    if x in f && !f[x].view.cancelled {
      var h := f[x := Marked(f[x])];
      var found := Live(f, f[x].children);
      MarkSpares(f, x, kept);
      FoundAreReady(f, x, h, kept, need);
      ReadyLater(f, h, x, kept, need);
      GuardLater(f, h, kept, need);
      LaterShrinks(f, h, x);
      CancelAllSpares(h, found, kept, need);
      var i := AfterCancelAll(h, found);
      GuardLater(h, i, kept, need);
      ReadyLater(h, i, x, kept, need);
      SweptLater(h, i, x);
      LaterAt(h, i, x);
      LaterShrinks(h, i, null);
      EndSpares(i, x, force, kept, need);
      SparesTransitive(f, h, i, kept);
      SparesTransitive(f, i, AfterEnd(i, x, force), kept);
    }
  }

  lemma FoundAreReady(f: Forest, x: AsyncOperation, h: Forest, kept: set<AsyncOperation>, need: Need)
    requires Guarded(f, kept, need) && Ready(f, x, kept, need) && x in f && Later(f, h) && Swept(h, x)
    ensures forall c :: c in Live(f, f[x].children) ==> Ready(h, c, kept, need)
  {
    forall c | c in Live(f, f[x].children) ensures Ready(h, c, kept, need) {
      forall t | t in need[c] && t in kept ensures Swept(h, t) {
        if t != x { SweptLater(f, h, t); }
      }
    }
  }

  lemma CancelAllSpares(f: Forest, found: seq<AsyncOperation>, kept: set<AsyncOperation>, need: Need)
    requires Guarded(f, kept, need) && forall c :: c in found ==> Ready(f, c, kept, need)
    ensures Spares(f, AfterCancelAll(f, found), kept)
    decreases Potential(f), 2, |found|
  {
    hide Guarded, Ready, Potential, Spares, AfterCancelAll, AfterCancel, Later;
    CancelAllUnfolds(f, found);
    SparesReflexive(f, kept);
    if found != [] {
      var h := AfterCancel(f, found[0], false);
      CancelSpares(f, found[0], false, kept, need);
      GuardLater(f, h, kept, need);
      LaterShrinks(f, h, null);
      forall c | c in found[1..] ensures Ready(h, c, kept, need) { ReadyLater(f, h, c, kept, need); }
      CancelAllSpares(h, found[1..], kept, need);
      SparesTransitive(f, h, AfterCancelAll(h, found[1..]), kept);
    }
  }

  lemma EndSpares(f: Forest, x: AsyncOperation, force: bool, kept: set<AsyncOperation>, need: Need)
    requires x in f && Guarded(f, kept, need) && Ready(f, x, kept, need) && Swept(f, x)
    ensures Spares(f, AfterEnd(f, x, force), kept)
    decreases Potential(f), 5, 0
  {
    assert MayRun(f, x, kept, need);
    hide *;
    EndUnfolds(f, x, force);
    SparesReflexive(f, kept);
    GuardAt(f, x, kept, need);
    if !force && x.skip {
      HookSpares(f, x, x.onCancel, kept, need);
    } else if f[x].view.life == Started {
      var h := f[x := Claimed(f[x])];
      ClaimSpares(f, x, kept);
      ClaimShrinks(f, x);
      GuardLater(f, h, kept, need);
      MayRunLater(f, h, x, kept, need);
      HookSpares(h, x, x.onCancel, kept, need);
      var i := AfterHook(h, x.onCancel);
      GuardLater(h, i, kept, need);
      MayRunLater(h, i, x, kept, need);
      LaterShrinks(h, i, null);
      FinishSpares(i, x, OPERATION_CANCELED, kept, need);
      SparesTransitive(f, h, i, kept);
      SparesTransitive(f, i, AfterFinish(i, x, OPERATION_CANCELED), kept);
    }
  }

  // ---------------------------------------------------------------- what protects a path

  /** Nothing that could happen in a cancel of h, by the look of the hooks and child
      lists, discards a child of an operation on the path. */
  ghost predicate Protected(f: Forest, h: AsyncOperation, path: seq<AsyncOperation>, kept: set<AsyncOperation>, need: Need) {
    Guarded(f, kept, need) && Ready(f, h, kept, need) && forall o :: o in path ==> o in kept
  }

  lemma {:induction false} SparedIsUndropped(f: Forest, g: Forest, kept: set<AsyncOperation>, path: seq<AsyncOperation>)
    requires Tidy(f) && Path(f, path) && Spares(f, g, kept) && forall o :: o in path ==> o in kept
    ensures Undropped(g, path)
    decreases |path|
  {
    if |path| > 1 {
      assert path[0] in path && f[path[0]].dropped == {};
      SparedIsUndropped(f, g, kept, path[1..]);
    }
  }

  lemma CancelReachesProtected(f: Forest, h: AsyncOperation, force: bool, path: seq<AsyncOperation>, kept: set<AsyncOperation>, need: Need)
    requires Ok(f) && Tidy(f) && Quiescent(f) && Path(f, path) && path[0] == h && Protected(f, h, path, kept, need)
    ensures forall o :: o in path ==> Reached(o, f, AfterCancel(f, h, force))
  {
    var g := AfterCancel(f, h, force);
    hide Ok, Tidy, Quiescent, EvolvedBut, Guarded, Ready, Path, Undropped, Reached, AfterCancel, Spares, Later;
    CancelSpares(f, h, force, kept, need);
    SparedIsUndropped(f, g, kept, path);
    PathStarts(f, h, path);
    CancelKeeps(f, h, force);
    CancelReaches(f, g, path);
  }

  lemma PathStarts(f: Forest, h: AsyncOperation, path: seq<AsyncOperation>)
    requires PathFrom(f, h, path)
    ensures Path(f, path) && path != [] && path[0] == h && h in f
  {
  }

  /** What every cancel keeps. */
  lemma CancelKeeps(f: Forest, h: AsyncOperation, force: bool)
    requires Ok(f) && Tidy(f) && Quiescent(f) && h in f
    ensures var g := AfterCancel(f, h, force);
            Ok(g) && Tidy(g) && Quiescent(g) && Evolved(f, g) && h in g && g[h].view.cancelled && Settled(g[h])
  {
    var g := AfterCancel(f, h, force);
    hide Ok, Tidy, Quiescent, EvolvedBut, AfterCancel, Later;
    CancelEvolves(f, h, force);
    OkLater(f, g);
    TidyLater(f, g);
    QuiescentStays(f, g);
  }

  // ---------------------------------------------------------------- hooks in use

  /** Every hook completes nothing but its own operation; what it cancels is free. */
  ghost predicate SelfOnly(actions: seq<Action>, o: AsyncOperation) {
    forall i :: 0 <= i < |actions| ==> actions[i].CompleteIt? ==> actions[i].target == o
  }

  ghost predicate HooksMindThemselves(f: Forest) {
    forall o :: o in f ==> SelfOnly(o.onCancel, o) && SelfOnly(o.onCompleted, o) && SelfOnly(o.onDone, o)
  }

  ghost function NoNeed(f: Forest): Need {
    map o | o in f :: {}
  }

  lemma SelfOnlyProtects(f: Forest, h: AsyncOperation, path: seq<AsyncOperation>)
    requires Ok(f) && HooksMindThemselves(f) && h in f && Path(f, path)
    ensures Protected(f, h, path, f.Keys, NoNeed(f))
  {
    var need := NoNeed(f);
    PathInside(f, path);
    forall o | o in f ensures Obeys(o.onCancel, o, f.Keys, need) && Obeys(o.onCompleted, o, f.Keys, need) && Obeys(o.onDone, o, f.Keys, need) {
      assert Targets(o.onCancel, f) && Targets(o.onCompleted, f) && Targets(o.onDone, f);
    }
    assert Guarded(f, f.Keys, need) && Ready(f, h, f.Keys, need);
  }

  lemma {:induction false} PathInside(f: Forest, path: seq<AsyncOperation>)
    requires Path(f, path)
    ensures forall o :: o in path ==> o in f
    decreases |path|
  {
    if |path| > 1 { PathInside(f, path[1..]); }
  }

  /** The child lists follow the parent pointers. */
  ghost predicate Rooted(f: Forest) {
    forall o :: o in f ==>
      && (forall c :: c in f[o].children ==> c.parent == o)
      && o.above == (if o.parent == null then {} else o.parent.above + {o.parent})
      && o !in o.above && (forall t :: t in o.above ==> t in f && t.above <= o.above)
  }

  /** A hook completes its own operation or one above it, as the callback of a child
      does that hands its result to its parent; and it cancels only operations all
      of whose ancestors are its own or itself: brothers, children, whole roots. */
  ghost predicate Upward(actions: seq<Action>, o: AsyncOperation) {
    forall i :: 0 <= i < |actions| ==>
      && (actions[i].CompleteIt? ==> actions[i].target == o || actions[i].target in o.above)
      && (actions[i].CancelIt? ==> actions[i].target.above <= o.above + {o})
  }

  ghost predicate HooksReachUpward(f: Forest) {
    forall o :: o in f ==> Upward(o.onCancel, o) && Upward(o.onCompleted, o) && Upward(o.onDone, o)
  }

  ghost function Below(f: Forest, h: AsyncOperation): set<AsyncOperation> {
    set o | o in f && (o == h || h in o.above)
  }

  ghost function NeedBelow(f: Forest, h: AsyncOperation): Need {
    map o | o in f :: o.above * Below(f, h)
  }

  lemma UpwardProtects(f: Forest, h: AsyncOperation, path: seq<AsyncOperation>)
    requires Ok(f) && Rooted(f) && HooksReachUpward(f) && h in f && Path(f, path) && path[0] == h
    ensures Protected(f, h, path, Below(f, h), NeedBelow(f, h))
  {
    var kept, need := Below(f, h), NeedBelow(f, h);
    PathBelow(f, h, path);
    assert need[h] == {};
    forall o | o in f
      ensures (forall c :: c in f[o].children ==> c in need && need[c] <= need[o] + {o})
      ensures Obeys(o.onCancel, o, kept, need) && Obeys(o.onCompleted, o, kept, need) && Obeys(o.onDone, o, kept, need)
    {
      OkMeans(f, o);
      UpwardObeys(f, h, o, o.onCancel);
      UpwardObeys(f, h, o, o.onCompleted);
      UpwardObeys(f, h, o, o.onDone);
    }
    assert Guarded(f, kept, need) && Ready(f, h, kept, need);
  }

  lemma UpwardObeys(f: Forest, h: AsyncOperation, o: AsyncOperation, actions: seq<Action>)
    requires Rooted(f) && h in f && o in f && Upward(actions, o) && Targets(actions, f)
    ensures Obeys(actions, o, Below(f, h), NeedBelow(f, h))
  {
  }

  lemma {:induction false} PathBelow(f: Forest, h: AsyncOperation, path: seq<AsyncOperation>)
    requires Rooted(f) && Path(f, path) && path[0] in Below(f, h)
    ensures forall o :: o in path ==> o in Below(f, h)
    decreases |path|
  {
    hide Rooted, Below;
    if |path| > 1 {
      ChildBelow(f, h, path[0], path[1]);
      PathBelow(f, h, path[1..]);
    }
  }

  lemma ChildBelow(f: Forest, h: AsyncOperation, o: AsyncOperation, c: AsyncOperation)
    requires Rooted(f) && o in Below(f, h) && c in f && c in f[o].children
    ensures c in Below(f, h)
  {
  }

  // ---------------------------------------------------------------- exactly when a child is missed

  ghost predicate Names(actions: seq<Action>, y: AsyncOperation) {
    exists i :: 0 <= i < |actions| && actions[i].target == y
  }

  /** No hook has y for its target, and nobody but x lists it. */
  ghost predicate Unnamed(f: Forest, x: AsyncOperation, y: AsyncOperation) {
    && x in f && y in f && x != y && (y in f[x].children ==> y !in f[x].dropped)
    && forall o :: o in f ==>
         !Names(o.onCancel, y) && !Names(o.onCompleted, y) && !Names(o.onDone, y) && (y in f[o].children ==> o == x)
  }

  /** y is as it was, or a sweep took it from the list of x. */
  ghost predicate Leaves(f: Forest, g: Forest, x: AsyncOperation, y: AsyncOperation) {
    && x in f && y in f && x in g && y in g
    && (g[y].view == f[y].view || (y in f[x].children && y !in g[x].children && y !in g[x].dropped))
  }

  lemma UnnamedLater(f: Forest, g: Forest, x: AsyncOperation, y: AsyncOperation)
    requires Unnamed(f, x, y) && Later(f, g)
    ensures Unnamed(g, x, y)
  {
    forall o | o in g ensures y in g[o].children ==> y in f[o].children { LaterAt(f, g, o); }
    LaterAt(f, g, x);
  }

  lemma LeavesTransitive(f: Forest, g: Forest, h: Forest, x: AsyncOperation, y: AsyncOperation)
    requires Later(f, g) && Later(g, h) && Leaves(f, g, x, y) && Leaves(g, h, x, y)
    ensures Leaves(f, h, x, y)
  {
    LaterAt(f, g, x);
    LaterAt(g, h, x);
  }

  lemma LeavesReflexive(f: Forest, x: AsyncOperation, y: AsyncOperation)
    requires x in f && y in f
    ensures Leaves(f, f, x, y)
  {
  }

  lemma UpdateLeaves(f: Forest, x: AsyncOperation, y: AsyncOperation, z: AsyncOperation, b: Shot)
    requires Unnamed(f, x, y) && z in f && z != y && LaterShot(f[z], b)
    ensures Leaves(f, f[z := b], x, y) && Later(f, f[z := b]) && Unnamed(f[z := b], x, y)
  {
    LaterUpdate(f, z, b);
    UnnamedLater(f, f[z := b], x, y);
  }

  lemma UnnamedAt(f: Forest, x: AsyncOperation, y: AsyncOperation, o: AsyncOperation)
    requires Unnamed(f, x, y) && o in f
    ensures x in f && y in f && !Names(o.onCancel, y) && !Names(o.onCompleted, y) && !Names(o.onDone, y)
  {
  }

  lemma HookLeaves(f: Forest, actions: seq<Action>, x: AsyncOperation, y: AsyncOperation)
    requires Unnamed(f, x, y) && !Names(actions, y)
    ensures Leaves(f, AfterHook(f, actions), x, y)
    decreases Potential(f), 2, |actions|
  {
    hide *;
    HookUnfolds(f, actions);
    UnnamedIn(f, x, y);
    LeavesReflexive(f, x, y);
    if actions != [] {
      var g := AfterAction(f, actions[0]);
      NamesNoOther(actions, y);
      ActionLeaves(f, actions[0], x, y);
      UnnamedLater(f, g, x, y);
      LaterShrinks(f, g, null);
      HookLeaves(g, actions[1..], x, y);
      LeavesTransitive(f, g, AfterHook(g, actions[1..]), x, y);
    }
  }

  lemma NamesNoOther(actions: seq<Action>, y: AsyncOperation)
    requires actions != [] && !Names(actions, y)
    ensures actions[0].target != y && !Names(actions[1..], y)
  {
    assert forall i :: 0 <= i < |actions[1..]| ==> actions[1..][i] == actions[i + 1];
  }

  lemma ActionLeaves(f: Forest, a: Action, x: AsyncOperation, y: AsyncOperation)
    requires Unnamed(f, x, y) && a.target != y
    ensures Leaves(f, AfterAction(f, a), x, y)
    decreases Potential(f), 1, 0
  {
    hide Unnamed, Leaves, Potential, AfterTryComplete, AfterCancel, Later;
    match a
    case CompleteIt(target, error) => TryCompleteLeaves(f, target, error, x, y);
    case CancelIt(target, force) => CancelLeaves(f, target, force, x, y);
  }

  lemma TryCompleteLeaves(f: Forest, z: AsyncOperation, error: Value, x: AsyncOperation, y: AsyncOperation)
    requires Unnamed(f, x, y) && z != y
    ensures Leaves(f, AfterTryComplete(f, z, error), x, y)
    decreases Potential(f), 0, 0
  {
    hide *;
    UnnamedIn(f, x, y);
    LeavesReflexive(f, x, y);
    if z in f { TryCompleteUnfolds(f, z, error); } else { NothingToComplete(f, z, error); }
    if z in f && f[z].view.life == Started {
      var h: Forest := f[z := Claimed(f[z])];
      ClaimSpares(f, z, {});
      ClaimShrinks(f, z);
      ClaimedLater(f[z]);
      UpdateLeaves(f, x, y, z, Claimed(f[z]));
      FinishLeaves(h, z, error, x, y);
      LeavesTransitive(f, h, AfterFinish(h, z, error), x, y);
    }
  }

  lemma UnnamedIn(f: Forest, x: AsyncOperation, y: AsyncOperation)
    requires Unnamed(f, x, y)
    ensures x in f && y in f
  {
  }

  lemma ClaimedLater(a: Shot)
    ensures LaterShot(a, Claimed(a)) && LaterShot(a, Published(a, a.error)) && LaterShot(a, a.(fired := a.fired + 1))
  {
  }

  lemma PublishLeaves(f: Forest, z: AsyncOperation, error: Value, x: AsyncOperation, y: AsyncOperation)
    requires z in f && Unnamed(f, x, y) && z != y
    ensures var h: Forest := f[z := Published(f[z], error)];
            Leaves(f, h, x, y) && Later(f, h) && Unnamed(h, x, y) && Potential(h) <= Potential(f)
  {
    var h: Forest := f[z := Published(f[z], error)];
    UpdateLeaves(f, x, y, z, Published(f[z], error));
    hide Potential;
    LaterShrinks(f, h, null);
  }

  lemma FinishLeaves(f: Forest, z: AsyncOperation, error: Value, x: AsyncOperation, y: AsyncOperation)
    requires z in f && Stage(f[z].view.life) >= 2 && Unnamed(f, x, y) && z != y
    ensures Leaves(f, AfterFinish(f, z, error), x, y)
    decreases Potential(f), 4, 0
  {
    hide *;
    FinishUnfolds(f, z, error);
    PublishLeaves(f, z, error, x, y);
    var h: Forest := f[z := Published(f[z], error)];
    UnnamedAt(h, x, y, z);
    HookLeaves(h, z.onCompleted, x, y);
    var i := AfterHook(h, z.onCompleted);
    UnnamedLater(h, i, x, y);
    LaterShrinks(h, i, null);
    LeavesTransitive(f, h, i, x, y);
    LaterTransitive(f, h, i);
    FinishLeavesBehind(f, i, z, x, y);
  }

  lemma FinishLeavesBehind(f: Forest, i: Forest, z: AsyncOperation, x: AsyncOperation, y: AsyncOperation)
    requires z in i && Unnamed(i, x, y) && z != y && Later(f, i) && Leaves(f, i, x, y) && Potential(i) <= Potential(f)
    requires z in AfterCallback(i, z) && Stage(AfterCallback(i, z)[z].view.life) >= 3
    ensures Leaves(f, AfterCleanup(AfterCallback(i, z), z), x, y)
    decreases Potential(f), 3, 1
  {
    hide *;
    CallbackLeaves(i, z, x, y);
    var j := AfterCallback(i, z);
    UnnamedLater(i, j, x, y);
    CleanupLeaves(j, z, x, y);
    LeavesTransitive(f, i, j, x, y);
    LaterTransitive(f, i, j);
    LeavesTransitive(f, j, AfterCleanup(j, z), x, y);
  }

  lemma CallbackLeaves(f: Forest, z: AsyncOperation, x: AsyncOperation, y: AsyncOperation)
    requires z in f && Unnamed(f, x, y) && z != y
    ensures Leaves(f, AfterCallback(f, z), x, y)
    decreases Potential(f), 3, 0
  {
    hide *;
    CallbackUnfolds(f, z);
    UnnamedIn(f, x, y);
    LeavesReflexive(f, x, y);
    if f[z].callback {
      var h: Forest := f[z := f[z].(fired := f[z].fired + 1)];
      ClaimedLater(f[z]);
      UpdateLeaves(f, x, y, z, f[z].(fired := f[z].fired + 1));
      UnnamedAt(h, x, y, z);
      LaterShrinks(f, h, null);
      HookLeaves(h, z.onDone, x, y);
      LeavesTransitive(f, h, AfterHook(h, z.onDone), x, y);
    }
  }

  lemma CleanupLeaves(f: Forest, z: AsyncOperation, x: AsyncOperation, y: AsyncOperation)
    requires z in f && Stage(f[z].view.life) >= 3 && Unnamed(f, x, y) && z != y
    ensures Leaves(f, AfterCleanup(f, z), x, y)
  {
    hide AfterCleanup, Remaining, Unnamed;
    CleanupUnfolds(f, z);
    UnnamedIn(f, x, y);
  }

  lemma CancelLeaves(f: Forest, z: AsyncOperation, force: bool, x: AsyncOperation, y: AsyncOperation)
    requires Unnamed(f, x, y) && z != y
    ensures Leaves(f, AfterCancel(f, z, force), x, y)
    decreases Potential(f), 0, 1
  {
    hide *;
    UnnamedIn(f, x, y);
    LeavesReflexive(f, x, y);
    if z in f { CancelUnfolds(f, z, force); } else { NothingToCancel(f, z, force); }
    if z in f && !f[z].view.cancelled {
      var h: Forest := f[z := Marked(f[z])];
      MarkSpares(f, z, {});
      UnnamedLater(f, h, x, y);
      LaterShrinks(f, h, z);
      if y in f[z].children {
        TakenBySweep(f, z, force, x, y);
      } else {
        LiveAreListed(f, f[z].children, y);
        MarkLeaves(f, z, x, y);
        SweepLeaves(f, z, force, x, y);
      }
    }
  }

  lemma LiveAreListed(f: Forest, list: seq<AsyncOperation>, y: AsyncOperation)
    ensures y in Live(f, list) ==> y in list
  {
  }

  lemma MarkLeaves(f: Forest, z: AsyncOperation, x: AsyncOperation, y: AsyncOperation)
    requires z in f && !f[z].view.cancelled && Unnamed(f, x, y) && z != y
    ensures Leaves(f, f[z := Marked(f[z])], x, y)
  {
  }

  lemma SweepLeaves(f: Forest, z: AsyncOperation, force: bool, x: AsyncOperation, y: AsyncOperation)
    requires z in f && !f[z].view.cancelled && Unnamed(f, x, y) && z != y && y !in Live(f, f[z].children)
    requires var h := f[z := Marked(f[z])]; Later(f, h) && Unnamed(h, x, y) && Leaves(f, h, x, y) && Potential(h) < Potential(f)
    ensures Leaves(f, AfterCancel(f, z, force), x, y)
    decreases Potential(f), 0, 0
  {
    hide *;
    CancelUnfolds(f, z, force);
    var h: Forest := f[z := Marked(f[z])];
    var found := Live(f, f[z].children);
    CancelAllLeaves(h, found, x, y);
    var i := AfterCancelAll(h, found);
    UnnamedLater(h, i, x, y);
    LaterAt(h, i, z);
    LaterShrinks(h, i, null);
    EndLeaves(i, z, force, x, y);
    LeavesTransitive(f, h, i, x, y);
    LaterTransitive(f, h, i);
    LeavesTransitive(f, i, AfterEnd(i, z, force), x, y);
  }

  /** Once swept, y is in neither the list nor the discarded children of x. */
  lemma TakenBySweep(f: Forest, z: AsyncOperation, force: bool, x: AsyncOperation, y: AsyncOperation)
    requires z in f && !f[z].view.cancelled && Unnamed(f, x, y) && y in f[z].children
    ensures Leaves(f, AfterCancel(f, z, force), x, y)
  {
    assert z == x;
    var h: Forest := f[z := Marked(f[z])];
    LaterUpdate(f, z, h[z]);
    assert y !in h[x].children && y !in h[x].dropped;
    hide AfterCancel, AfterCancelAll, AfterEnd, Live, Later, Unnamed;
    CancelUnfolds(f, z, force);
    var i := AfterCancelAll(h, Live(f, f[z].children));
    LaterAt(h, i, x);
    LaterAt(i, AfterEnd(i, z, force), x);
    LaterAt(h, i, y);
    LaterAt(i, AfterEnd(i, z, force), y);
  }

  lemma CancelAllLeaves(f: Forest, found: seq<AsyncOperation>, x: AsyncOperation, y: AsyncOperation)
    requires Unnamed(f, x, y) && y !in found
    ensures Leaves(f, AfterCancelAll(f, found), x, y)
    decreases Potential(f), 2, |found|
  {
    hide *;
    CancelAllUnfolds(f, found);
    UnnamedIn(f, x, y);
    LeavesReflexive(f, x, y);
    if found != [] {
      var h := AfterCancel(f, found[0], false);
      CancelLeaves(f, found[0], false, x, y);
      UnnamedLater(f, h, x, y);
      LaterShrinks(f, h, null);
      CancelAllLeaves(h, found[1..], x, y);
      LeavesTransitive(f, h, AfterCancelAll(h, found[1..]), x, y);
    }
  }

  lemma EndLeaves(f: Forest, z: AsyncOperation, force: bool, x: AsyncOperation, y: AsyncOperation)
    requires z in f && Unnamed(f, x, y) && z != y
    ensures Leaves(f, AfterEnd(f, z, force), x, y)
    decreases Potential(f), 5, 0
  {
    hide *;
    EndUnfolds(f, z, force);
    UnnamedIn(f, x, y);
    LeavesReflexive(f, x, y);
    UnnamedAt(f, x, y, z);
    if !force && z.skip {
      HookLeaves(f, z.onCancel, x, y);
    } else if f[z].view.life == Started {
      var h: Forest := f[z := Claimed(f[z])];
      ClaimShrinks(f, z);
      ClaimedLater(f[z]);
      UpdateLeaves(f, x, y, z, Claimed(f[z]));
      HookLeaves(h, z.onCancel, x, y);
      var i := AfterHook(h, z.onCancel);
      UnnamedLater(h, i, x, y);
      LaterShrinks(h, i, null);
      FinishLeaves(i, z, OPERATION_CANCELED, x, y);
      LeavesTransitive(f, h, i, x, y);
      LaterTransitive(f, h, i);
      LeavesTransitive(f, i, AfterFinish(i, z, OPERATION_CANCELED), x, y);
    }
  }

  /** Exactly when one child is missed: y, listed by x alone and named by no hook, is
      cancelled or completed by a cancel that starts elsewhere if and only if it
      left the list of x otherwise than through the Cleanup of x. */
  lemma ReachedUnlessDiscarded(f: Forest, h: AsyncOperation, force: bool, x: AsyncOperation, y: AsyncOperation)
    requires Ok(f) && h in f && h != y && Unnamed(f, x, y) && y in f[x].children && !f[y].expired && !Settled(f[y])
    ensures var g := AfterCancel(f, h, force);
            && x in g && y in g
            && (Settled(g[y]) <==> y !in g[x].children && y !in g[x].dropped)
            && (!Settled(g[y]) ==> g[y].view == f[y].view)
  {
    var g := AfterCancel(f, h, force);
    CancelLeaves(f, h, force, x, y);
    CancelEvolves(f, h, force);
    hide AfterCancel, Unnamed, Ok;
    LaterAt(f, g, y);
    assert y !in g[x].children ==> Accounted(g, x, y);
  }

  /** Each member below the head is unsettled, unnamed, and listed by the one before. */
  ghost predicate Exposed(f: Forest, path: seq<AsyncOperation>) {
    |path| > 1 ==>
      && path[0] in f && path[1] in f && Unnamed(f, path[0], path[1]) && !Settled(f[path[1]]) && Exposed(f, path[1..])
  }

  /** And of a whole path: it is reached if and only if nothing on it was discarded. */
  lemma {:induction false} PathReachedUnlessDiscarded(f: Forest, h: AsyncOperation, force: bool, path: seq<AsyncOperation>)
    requires Ok(f) && Tidy(f) && Quiescent(f) && Path(f, path) && path[0] == h && h !in path[1..] && Exposed(f, path)
    ensures var g := AfterCancel(f, h, force);
            (forall o :: o in path ==> Reached(o, f, g)) <==> Undropped(g, path)
  {
    var g := AfterCancel(f, h, force);
    hide Ok, Tidy, Quiescent, EvolvedBut, AfterCancel, Reached, Later;
    CancelKeeps(f, h, force);
    if Undropped(g, path) { CancelReaches(f, g, path); }
    if forall o :: o in path ==> Reached(o, f, g) { ReachedAreUndropped(f, h, force, path); }
  }

  lemma {:induction false} ReachedAreUndropped(f: Forest, h: AsyncOperation, force: bool, path: seq<AsyncOperation>)
    requires Ok(f) && Path(f, path) && h in f && h !in path[1..] && Exposed(f, path)
    requires forall o :: o in path ==> Reached(o, f, AfterCancel(f, h, force))
    ensures Undropped(AfterCancel(f, h, force), path)
    decreases |path|
  {
    var g := AfterCancel(f, h, force);
    hide Ok, AfterCancel, Unnamed, Later;
    if |path| > 1 {
      assert path[1] in path && path[1] in path[1..];
      assert Reached(path[1], f, g);
      ReachedUnlessDiscarded(f, h, force, path[0], path[1]);
      ReachedAreUndropped(f, h, force, path[1..]);
    }
  }

  // ---------------------------------------------------------------- on the heap

  /** Cancel, called on a quiescent forest from outside of any callback. It leaves
      the forest quiescent and every live child of h cancelled; it completes h if
      forced, whatever h makes of cancel; and it reaches every live descendant that
      is protected, in particular all of them if hooks complete nothing but their own
      operation, or complete no other than those above it and cancel only operations
      whose ancestors are their own operation and those above it. */
  method CancelFromOutside(h: AsyncOperation, force: bool, ghost all: set<AsyncOperation>, ghost kept: set<AsyncOperation>, ghost need: Need)
    requires Ok(Take(all)) && Tidy(Take(all)) && Quiescent(Take(all)) && h in all && !h.view.cancelled
    modifies all
    ensures Take(all) == AfterCancel(old(Take(all)), h, force)
    ensures Ok(Take(all)) && Tidy(Take(all)) && Quiescent(Take(all)) && h.view.cancelled
    ensures force && old(h.view.life) != Created ==> Stage(h.view.life) >= 3
    ensures forall c :: c in old(h.children) && !old(Expired(Take(all), c)) ==> c.view.cancelled
    ensures forall path: seq<AsyncOperation> ::
              && PathFrom(old(Take(all)), h, path)
              && (HooksMindThemselves(old(Take(all))) || (Rooted(old(Take(all))) && HooksReachUpward(old(Take(all))))
                  || Protected(old(Take(all)), h, path, kept, need) || Undropped(Take(all), path)) ==>
                forall o :: o in path ==> Reached(o, old(Take(all)), Take(all))
  {
    hide *;
    ghost var f := Take(all);
    Seen(all, h);
    h.Cancel(force, all);
    ghost var g := Take(all);
    CancelKeeps(f, h, force);
    SweepEvolves(f, h, force);
    CompletedIfForced(g, h);
    Seen(all, h);
    forall c | c in f[h].children && !Expired(f, c) ensures c.view.cancelled { Seen(all, c); }
    forall path: seq<AsyncOperation> | PathFrom(f, h, path) &&
        (HooksMindThemselves(f) || (Rooted(f) && HooksReachUpward(f)) || Protected(f, h, path, kept, need) || Undropped(g, path))
      ensures forall o :: o in path ==> Reached(o, f, g)
    {
      PathStarts(f, h, path);
      if HooksMindThemselves(f) {
        SelfOnlyProtects(f, h, path);
        CancelReachesProtected(f, h, force, path, f.Keys, NoNeed(f));
      } else if Rooted(f) && HooksReachUpward(f) {
        UpwardProtects(f, h, path);
        CancelReachesProtected(f, h, force, path, Below(f, h), NeedBelow(f, h));
      } else if Protected(f, h, path, kept, need) {
        CancelReachesProtected(f, h, force, path, kept, need);
      } else {
        CancelReaches(f, g, path);
      }
    }
  }

  lemma Seen(all: set<AsyncOperation>, o: AsyncOperation)
    ensures o in all ==> Take(all)[o].view == o.view && Take(all)[o].children == o.children
  {
  }

  lemma CompletedIfForced(g: Forest, h: AsyncOperation)
    requires Quiescent(g) && h in g
    ensures Stage(g[h].view.life) >= 2 ==> Stage(g[h].view.life) >= 3
  {
  }
}
