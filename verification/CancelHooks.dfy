/** That the hooks run, and when: OnCancel once the completion has been claimed, or on a mere
    signal; then OnCompleted; then the callback. What a hook does is told by an operation
    that it completes: the first error to get there stays. */
module CancelHooks {
  import opened LifecycleWord
  import opened ErrorCodes
  import opened CancelTree
  import opened CancelEffects

  ghost predicate NotStarted(f: Forest, a: AsyncOperation) {
    a in f && f[a].view.life != Started
  }

  /** a has completed with this error, for good. */
  ghost predicate EndedWith(f: Forest, a: AsyncOperation, error: Value) {
    a in f && Stage(f[a].view.life) >= 2 && f[a].error == error
  }

  lemma StaysSo(f: Forest, g: Forest, x: AsyncOperation?, a: AsyncOperation, error: Value)
    requires EvolvedBut(f, g, x) && a != x
    ensures NotStarted(f, a) ==> NotStarted(g, a)
    ensures EndedWith(f, a, error) ==> EndedWith(g, a, error)
  {
    if a in f {
      LaterAt(f, g, a);
      EvolvedAt(f, g, x, a);
    }
  }

  lemma TryCompleteEndsIt(f: Forest, a: AsyncOperation, error: Value)
    requires Ok(f) && a in f
    ensures NotStarted(AfterTryComplete(f, a, error), a)
    ensures f[a].view.life == Started ==> EndedWith(AfterTryComplete(f, a, error), a, error)
  {
    hide Ok, EvolvedBut, AfterTryComplete, AfterFinish, Claimed, Potential, Later;
    TryCompleteUnfolds(f, a, error);
    if f[a].view.life == Started {
      ClaimSteps(f, a);
      FinishEvolves(f[a := Claimed(f[a])], a, error);
    }
  }

  /** A hook does all that it contains. */
  lemma {:induction false} HookCompletesIt(f: Forest, actions: seq<Action>, a: AsyncOperation)
    requires Ok(f) && a in f && (NotStarted(f, a) || Completes(actions, a))
    ensures NotStarted(AfterHook(f, actions), a)
    decreases |actions|
  {
    hide Ok, EvolvedBut, AfterHook, AfterTryComplete, AfterCancel, Later, NotStarted;
    HookUnfolds(f, actions);
    if actions != [] {
      var g := AfterAction(f, actions[0]);
      ActionEvolves(f, actions[0]);
      LaterOf(f, g, null);
      OkLater(f, g);
      LaterAt(f, g, a);
      StaysSo(f, g, null, a, SUCCESS);
      if Completes(actions, a) {
        if actions[0].CompleteIt? && actions[0].target == a { TryCompleteEndsIt(f, a, actions[0].error); } else { OneOfTheRest(actions, a); }
      }
      HookCompletesIt(g, actions[1..], a);
    }
  }

  lemma OneOfTheRest(actions: seq<Action>, a: AsyncOperation)
    requires Completes(actions, a) && !(actions[0].CompleteIt? && actions[0].target == a)
    ensures Completes(actions[1..], a)
  {
    var i :| 0 <= i < |actions| && actions[i].CompleteIt? && actions[i].target == a;
    assert actions[1..][i - 1] == actions[i];
  }

  /** And what comes first in it, it does first. */
  lemma HookBeginsWith(f: Forest, actions: seq<Action>, a: AsyncOperation, error: Value)
    requires Ok(f) && a in f && f[a].view.life == Started && actions != [] && actions[0] == CompleteIt(a, error)
    ensures EndedWith(AfterHook(f, actions), a, error)
  {
    var g := AfterTryComplete(f, a, error);
    assert AfterAction(f, actions[0]) == g;
    hide Ok, EvolvedBut, AfterHook, AfterTryComplete, AfterAction, Later, EndedWith;
    HookUnfolds(f, actions);
    TryCompleteEndsIt(f, a, error);
    ActionEvolves(f, actions[0]);
    LaterOf(f, g, null);
    OkLater(f, g);
    HookEvolves(g, actions[1..]);
    StaysSo(g, AfterHook(g, actions[1..]), null, a, error);
  }

  // ---------------------------------------------------------------- a completion

  /** The forest that OnCompleted finds. */
  ghost function Announced(f: Forest, x: AsyncOperation, error: Value): Forest
    requires x in f
  {
    f[x := Published(f[x], error)]
  }

  lemma Announces(f: Forest, x: AsyncOperation, error: Value)
    requires Ok(f) && x in f && f[x].view.life == Completing
    ensures var h := Announced(f, x, error);
            Ok(h) && StepsTo(f, x, h) && h[x].view.life == Completed && forall a :: a in f && a != x ==> a in h && h[a] == f[a]
  {
    PublishSteps(f, x, error);
    hide EvolvedBut, Potential;
  }

  lemma OnCompletedRuns(f: Forest, x: AsyncOperation, error: Value)
    requires Ok(f) && x in f && f[x].view.life == Completing
    ensures var i := AfterHook(Announced(f, x, error), x.onCompleted);
            Ok(i) && Evolved(Announced(f, x, error), i) && x in i && i[x].view.life == Completed && i[x].callback == f[x].callback
  {
    var h := Announced(f, x, error);
    var i := AfterHook(h, x.onCompleted);
    assert h[x].callback == f[x].callback;
    hide *;
    Announces(f, x, error);
    HookEvolves(h, x.onCompleted);
    OnCompletedEvolves(f, x, error, h);
    StepsMean(f, x, i);
  }

  /** From after OnCompleted to the end. */
  lemma RestEvolves(i: Forest, x: AsyncOperation)
    requires Ok(i) && x in i && i[x].view.life == Completed
    ensures var j := AfterCallback(i, x);
            && Ok(j) && x in j && j[x].view.life == Completed && Stage(j[x].view.life) >= 3
            && EvolvedBut(i, j, x) && EvolvedBut(i, AfterCleanup(j, x), x)
  {
    var j := AfterCallback(i, x);
    assert Stage(Completed) >= 3;
    hide *;
    CallbackEvolves(i, x);
    LaterOf(i, j, x);
    OkLater(i, j);
    CleanupEvolves(j, x);
    EvolvedTransitive(i, j, AfterCleanup(j, x), x);
  }

  lemma FinishIs(f: Forest, x: AsyncOperation, error: Value)
    requires Ok(f) && x in f && f[x].view.life == Completing
    ensures var i := AfterHook(Announced(f, x, error), x.onCompleted);
            && x in i && x in AfterCallback(i, x) && Stage(AfterCallback(i, x)[x].view.life) >= 3
            && AfterFinish(f, x, error) == AfterCleanup(AfterCallback(i, x), x)
  {
    hide AfterHook, AfterCallback, AfterCleanup, AfterFinish, Later, Published;
    FinishUnfolds(f, x, error);
  }

  /** The completion of x runs OnCompleted, and the callback if it is there. */
  lemma FinishRunsHooks(f: Forest, x: AsyncOperation, error: Value, a: AsyncOperation)
    requires Ok(f) && x in f && f[x].view.life == Completing && a in f && a != x
    requires Completes(x.onCompleted, a) || (f[x].callback && Completes(x.onDone, a))
    ensures NotStarted(AfterFinish(f, x, error), a)
  {
    var h := Announced(f, x, error);
    var i := AfterHook(h, x.onCompleted);
    hide *;
    Announces(f, x, error);
    OnCompletedRuns(f, x, error);
    FinishIs(f, x, error);
    RestEvolves(i, x);
    if Completes(x.onCompleted, a) {
      HookCompletesIt(h, x.onCompleted, a);
      StaysSo(i, AfterFinish(f, x, error), x, a, error);
    } else {
      InLater(h, i, a);
      CallbackRuns(i, x, a);
      CleanupKeepsIt(AfterCallback(i, x), x, a);
    }
  }

  lemma InLater(f: Forest, g: Forest, a: AsyncOperation)
    requires Evolved(f, g) && a in f
    ensures a in g
  {
  }

  lemma Calling(i: Forest, x: AsyncOperation)
    requires Ok(i) && x in i
    ensures var k: Forest := i[x := i[x].(fired := i[x].fired + 1)]; Ok(k) && k.Keys == i.Keys
  {
    UpdateSteps(i, x, i[x].(fired := i[x].fired + 1));
    hide EvolvedBut, Potential;
  }

  lemma CallbackRuns(i: Forest, x: AsyncOperation, a: AsyncOperation)
    requires Ok(i) && x in i && i[x].callback && Completes(x.onDone, a) && a in i
    ensures NotStarted(AfterCallback(i, x), a)
  {
    var k: Forest := i[x := i[x].(fired := i[x].fired + 1)];
    hide *;
    Calling(i, x);
    CallbackUnfolds(i, x);
    HookCompletesIt(k, x.onDone, a);
  }

  lemma CleanupKeepsIt(j: Forest, x: AsyncOperation, a: AsyncOperation)
    requires Ok(j) && x in j && j[x].view.life == Completed && NotStarted(j, a) && a != x
    ensures NotStarted(AfterCleanup(j, x), a)
  {
    CleanupEvolves(j, x);
    StaysSo(j, AfterCleanup(j, x), x, a, SUCCESS);
  }

  /** OnCompleted comes before the callback and Cleanup. */
  lemma OnCompletedComesFirst(f: Forest, x: AsyncOperation, error: Value, a: AsyncOperation, first: Value)
    requires Ok(f) && x in f && f[x].view.life == Completing && a in f && a != x && f[a].view.life == Started
    requires x.onCompleted != [] && x.onCompleted[0] == CompleteIt(a, first)
    ensures EndedWith(AfterFinish(f, x, error), a, first)
  {
    var h := Announced(f, x, error);
    var i := AfterHook(h, x.onCompleted);
    hide *;
    Announces(f, x, error);
    OnCompletedRuns(f, x, error);
    FinishIs(f, x, error);
    RestEvolves(i, x);
    HookBeginsWith(h, x.onCompleted, a, first);
    StaysSo(i, AfterFinish(f, x, error), x, a, first);
  }

  // ---------------------------------------------------------------- a cancel

  /** The end of a Cancel runs OnCancel when it only signals, and when it completes. */
  lemma EndRunsOnCancel(f: Forest, x: AsyncOperation, force: bool, a: AsyncOperation)
    requires Ok(f) && x in f && a in f && a != x && Completes(x.onCancel, a)
    requires (!force && x.skip) || f[x].view.life == Started
    ensures NotStarted(AfterEnd(f, x, force), a)
  {
    hide Ok, EvolvedBut, AfterEnd, AfterHook, AfterFinish, Claimed, NotStarted, Completes, Later, Potential;
    EndUnfolds(f, x, force);
    if !force && x.skip {
      HookCompletesIt(f, x.onCancel, a);
    } else {
      var h: Forest := f[x := Claimed(f[x])];
      ClaimSteps(f, x);
      StepsMean(f, x, h);
      HookCompletesIt(h, x.onCancel, a);
      OnCancelThenFinish(f, h, x, a, SUCCESS);
    }
  }

  lemma OnCancelThenFinish(f: Forest, h: Forest, x: AsyncOperation, a: AsyncOperation, error: Value)
    requires Ok(h) && x in h && h[x].view.life == Completing && a != x
    ensures var i := AfterHook(h, x.onCancel);
            && x in i && i[x].view.life == Completing && Ok(i)
            && (NotStarted(i, a) ==> NotStarted(AfterFinish(i, x, OPERATION_CANCELED), a))
            && (EndedWith(i, a, error) ==> EndedWith(AfterFinish(i, x, OPERATION_CANCELED), a, error))
  {
    var i := AfterHook(h, x.onCancel);
    hide Ok, EvolvedBut, AfterHook, AfterFinish, NotStarted, EndedWith, Later, Potential;
    HookEvolves(h, x.onCancel);
    HookSteps(h, x, x.onCancel);
    LaterOf(h, i, null);
    OkLater(h, i);
    FinishEvolves(i, x, OPERATION_CANCELED);
    StaysSo(i, AfterFinish(i, x, OPERATION_CANCELED), x, a, error);
  }

  /** OnCancel comes after the claim, so that x itself stays cancelled whatever the hook
      completes it with, and before OnCompleted and the callback. */
  lemma OnCancelComesFirst(f: Forest, x: AsyncOperation, force: bool, a: AsyncOperation, first: Value)
    requires Ok(f) && x in f && f[x].view.life == Started && (force || !x.skip)
    requires a in f && a != x && f[a].view.life == Started && x.onCancel != [] && x.onCancel[0] == CompleteIt(a, first)
    ensures EndedWith(AfterEnd(f, x, force), a, first) && EndedWith(AfterEnd(f, x, force), x, OPERATION_CANCELED)
  {
    var h: Forest := f[x := Claimed(f[x])];
    var i := AfterHook(h, x.onCancel);
    assert h[a] == f[a];
    hide *;
    EndUnfolds(f, x, force);
    ClaimSteps(f, x);
    StepsMean(f, x, h);
    ClaimCompletes(f, x);
    HookBeginsWith(h, x.onCancel, a, first);
    OnCancelThenFinish(f, h, x, a, first);
    FinishEvolves(i, x, OPERATION_CANCELED);
    FinishedEnds(i, AfterFinish(i, x, OPERATION_CANCELED), x, OPERATION_CANCELED);
  }

  lemma ClaimCompletes(f: Forest, x: AsyncOperation)
    requires x in f && f[x].view.life == Started
    ensures Claimed(f[x]).view.life == Completing
  {
  }

  lemma FinishedEnds(f: Forest, g: Forest, x: AsyncOperation, error: Value)
    requires Finished(f, g, x, error)
    ensures EndedWith(g, x, error)
  {
    hide EvolvedBut;
  }

  /** A childless operation that is started completes with the cancellation, whatever its own
      OnCancel tries to complete it with. */
  lemma ChildlessEndsCancelled(f: Forest, c: AsyncOperation, force: bool)
    requires Ok(f) && c in f && f[c].view.life == Started && !f[c].view.cancelled && f[c].children == [] && (force || !c.skip)
    ensures EndedWith(AfterCancel(f, c, force), c, OPERATION_CANCELED)
  {
    var h: Forest := f[c := Marked(f[c])];
    assert Live(f, []) == [];
    hide Ok, EvolvedBut, AfterCancel, AfterCancelAll, AfterEnd, Later, Potential, Marked, Live;
    CancelUnfolds(f, c, force);
    MarkSteps(f, c);
    CancelAllUnfolds(h, []);
    EndEvolves(h, c, force);
    FinishedEnds(h, AfterEnd(h, c, force), c, OPERATION_CANCELED);
  }

  /** The children come before OnCancel and the completion of their parent: the first of them
      is cancelled before any hook of the parent can do anything to it. */
  lemma FirstChildComesFirst(f: Forest, x: AsyncOperation, force: bool, c: AsyncOperation)
    requires Ok(f) && x in f && !f[x].view.cancelled && c != x && Live(f, f[x].children) != [] && Live(f, f[x].children)[0] == c
    requires c in f && f[c].view.life == Started && !f[c].view.cancelled && f[c].children == [] && !c.skip
    ensures EndedWith(AfterCancel(f, x, force), c, OPERATION_CANCELED)
  {
    var h: Forest := f[x := Marked(f[x])];
    var found := Live(f, f[x].children);
    var i := AfterCancel(h, c, false);
    var j := AfterCancelAll(h, found);
    var k := AfterCancelAll(i, found[1..]);
    assert h[c] == f[c];
    hide Ok, EvolvedBut, AfterCancel, AfterCancelAll, AfterEnd, Later, Potential, Marked, Live, EndedWith, Settles;
    CancelUnfolds(f, x, force);
    MarkSteps(f, x);
    CancelAllUnfolds(h, found);
    ChildlessEndsCancelled(h, c, false);
    CancelEvolves(h, c, false);
    LaterOf(h, i, null);
    OkLater(h, i);
    RestOfCancel(h, x, force, i, found[1..], c);
  }

  lemma RestOfCancel(h: Forest, x: AsyncOperation, force: bool, i: Forest, rest: seq<AsyncOperation>, c: AsyncOperation)
    requires Ok(i) && Later(h, i) && x in h && h[x].children == [] && (forall d :: d in rest ==> d in h) && c != x
    requires EndedWith(i, c, OPERATION_CANCELED)
    ensures EndedWith(AfterEnd(AfterCancelAll(i, rest), x, force), c, OPERATION_CANCELED)
  {
    var k := AfterCancelAll(i, rest);
    LaterAt(h, i, x);
    assert forall d :: d in rest ==> d in i;
    hide Ok, EvolvedBut, AfterCancelAll, AfterEnd, Later, Potential, EndedWith;
    CancelAllEvolves(i, rest);
    StaysSo(i, k, null, c, OPERATION_CANCELED);
    LaterOf(i, k, null);
    OkLater(i, k);
    LaterAt(i, k, x);
    EndEvolves(k, x, force);
    StaysSo(k, AfterEnd(k, x, force), x, c, OPERATION_CANCELED);
  }

  // ---------------------------------------------------------------- the order of lists

  ghost function Kept(f: Forest, o: AsyncOperation): seq<AsyncOperation> {
    if Expired(f, o) then [] else [o]
  }

  lemma LiveUnfolds(f: Forest, list: seq<AsyncOperation>)
    ensures Live(f, list) == if list == [] then [] else Kept(f, list[0]) + Live(f, list[1..])
  {
  }

  lemma {:induction false} LiveSplits(f: Forest, a: seq<AsyncOperation>, b: seq<AsyncOperation>)
    ensures Live(f, a + b) == Live(f, a) + Live(f, b)
    decreases |a|
  {
    hide *;
    LiveUnfolds(f, a + b);
    LiveUnfolds(f, a);
    if a == [] {
      assert a + b == b;
    } else {
      assert (a + b)[1..] == a[1..] + b && (a + b)[0] == a[0];
      LiveSplits(f, a[1..], b);
    }
  }

  /** A sweep takes the live children in the order of the list. */
  lemma SweepKeepsOrder(f: Forest, a: seq<AsyncOperation>, o: AsyncOperation, b: seq<AsyncOperation>)
    ensures Live(f, a + [o] + b) == Live(f, a) + (if Expired(f, o) then [] else [o]) + Live(f, b)
  {
    assert Live(f, [o]) == if Expired(f, o) then [] else [o];
    hide *;
    LiveSplits(f, a + [o], b);
    LiveSplits(f, a, [o]);
  }

  /** Detaching leaves the other live children in the order of the list. */
  lemma {:induction false} DetachKeepsOrder(f: Forest, a: seq<AsyncOperation>, o: AsyncOperation, b: seq<AsyncOperation>, child: AsyncOperation)
    ensures Remaining(f, a + [o] + b, child) ==
              Remaining(f, a, child) + (if o == child || Expired(f, o) then [] else [o]) + Remaining(f, b, child)
    decreases |a|
  {
    hide Expired;
    if a == [] {
      assert ([] + [o] + b)[1..] == b;
    } else {
      assert (a + [o] + b)[1..] == a[1..] + [o] + b;
      DetachKeepsOrder(f, a[1..], o, b, child);
    }
  }

  // ---------------------------------------------------------------- force

  /** A hook that cancels passes on whether it forces: an operation that takes cancel as a
      signal is completed by it if and only if it does. */
  lemma HookForces(f: Forest, x: AsyncOperation, force: bool)
    requires Ok(f) && x in f && f[x].view == View(Started, false, false) && f[x].children == [] && x.onCancel == []
    ensures x in AfterHook(f, [CancelIt(x, force)])
    ensures Stage(AfterHook(f, [CancelIt(x, force)])[x].view.life) >= 2 <==> force || !x.skip
  {
    var actions := [CancelIt(x, force)];
    var g := AfterCancel(f, x, force);
    assert AfterAction(f, actions[0]) == g && actions[1..] == [];
    hide Ok, EvolvedBut, AfterHook, AfterAction, AfterCancel, AfterCancelAll, AfterEnd, Later, Potential, Live, Marked;
    HookUnfolds(f, actions);
    HookUnfolds(g, []);
    SweepEvolves(f, x, force);
    if force || !x.skip {
      EvolvedAt(f, g, null, x);
    } else {
      SignalsOnly(f, x);
    }
  }

  lemma SignalsOnly(f: Forest, x: AsyncOperation)
    requires Ok(f) && x in f && f[x].view == View(Started, false, false) && f[x].children == [] && x.onCancel == [] && x.skip
    ensures AfterCancel(f, x, false) == f[x := f[x].(view := View(Started, false, true))]
  {
    assert Marked(f[x]) == f[x].(view := View(Started, false, true)) && Live(f, []) == [];
    hide AfterCancel, AfterCancelAll, AfterEnd, AfterHook, Marked, Live;
    CancelUnfolds(f, x, false);
    CancelAllUnfolds(f[x := Marked(f[x])], []);
    EndUnfolds(f[x := Marked(f[x])], x, false);
    HookUnfolds(f[x := Marked(f[x])], []);
  }
}
