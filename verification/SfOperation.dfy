/** sf::AsyncOperation: a mutex-guarded operation with at most one child. Cancel
    goes down the chain of children while it holds the locks of all ancestors. */
module SfOperation {
  import opened Sequences

  datatype State = Idle | Started | Cancelling | Cancelled | Completed

  /** A weak pointer: it may be empty, or its target may be gone. */
  datatype Weak = Nothing | To(op: AsyncOperation) | Gone

  type Code = int

  const NO_CODE: Code := 0
  const OPERATION_CANCELED: Code := 105
  const IN_PROGRESS: Code := 112
  const NOT_SUPPORTED: Code := 130

  /** What the derived class does in OnStart, and in OnCancel. */
  datatype Hook = Quiet | Completes(code: Code)

  datatype Face = Face(state: State, child: Weak, parent: AsyncOperation?, locked: bool, code: Code,
                       callback: bool, fired: nat, onCancelCalls: nat, synchronous: bool)

  class AsyncOperation {
    var state: State
    var child: Weak
    var parent: AsyncOperation?
    var locked: bool
    var code: Code
    var callback: bool
    var fired: nat
    var onCancelCalls: nat
    var synchronous: bool
    const onStart: Hook
    const onCancel: Hook

    constructor (callback: bool, parent: AsyncOperation?, onStart: Hook, onCancel: Hook)
      ensures Shows() == Face(Idle, Nothing, parent, false, NO_CODE, callback, 0, 0, false)
      ensures this.onStart == onStart && this.onCancel == onCancel
    {
      state, child, this.parent, locked, code := Idle, Nothing, parent, false, NO_CODE;
      this.callback, fired, onCancelCalls, synchronous := callback, 0, 0, false;
      this.onStart, this.onCancel := onStart, onCancel;
    }

    function Shows(): Face
      reads this
    {
      Face(state, child, parent, locked, code, callback, fired, onCancelCalls, synchronous)
    }

    function Above(): set<AsyncOperation>
      reads this
    {
      if parent == null then {} else {parent}
    }

    /** The mutex is not recursive: it must be free. */
    method Lock()
      requires !locked
      modifies this`locked
      ensures locked
    {
      locked := true;
    }

    method Unlock()
      requires locked
      modifies this`locked
      ensures !locked
    {
      locked := false;
    }

    method AttachChild(c: AsyncOperation)
      requires !child.To?
      modifies this`child
      ensures child == To(c)
    {
      assert !child.To?;
      child := To(c);
    }

    method ResetChild()
      modifies this`child
      ensures child == Nothing
    {
      child := Nothing;
    }

    method DetachFromParent()
      requires parent != this
      modifies this`parent, Above()`child
      ensures parent == null && (old(parent) != null ==> old(parent).child == Nothing)
    {
      if parent != null {
        parent.ResetChild();
        parent := null;
      }
    }

    method Start()
      requires state == Idle && !locked && parent != this
      requires parent != null ==> !parent.child.To?
      requires onStart.Completes? ==> callback && !child.To?
      modifies this, Above()
      ensures onStart.Quiet? ==>
                && Shows() == old(Shows()).(state := Started, synchronous := false)
                && (parent != null ==> parent.Shows() == old(parent.Shows()).(child := To(this)))
      ensures onStart.Completes? ==>
                && Shows() == Face(Completed, old(child), null, false, onStart.code, false, old(fired) + 1, old(onCancelCalls), true)
                && (old(parent) != null ==> old(parent).Shows() == old(parent.Shows()).(child := Nothing))
    {
      Lock();
      if parent != null { parent.AttachChild(this); }
      state := Started;
      Unlock();
      if onStart.Completes? { Complete(onStart.code); }
      Lock();
      synchronous := state == Completed;
      Unlock();
    }

    method Complete(withCode: Code)
      requires !locked && parent != this && state in {Started, Cancelling, Cancelled}
      requires state == Started ==> callback && !child.To?
      modifies this, if state == Started then Above() else {}
      ensures old(state) == Started ==>
                && Shows() == Face(Completed, old(child), null, false, withCode, false, old(fired) + 1, old(onCancelCalls), old(synchronous))
                && (old(parent) != null ==> old(parent).Shows() == old(parent.Shows()).(child := Nothing))
      ensures old(state) != Started ==> Shows() == old(Shows()).(code := if old(code) == NO_CODE then OPERATION_CANCELED else old(code))
    {
      Lock();
      if state == Started {
        code := withCode;
        assert !child.To?;
        DetachFromParent();
        state := Completed;
        assert callback;
        Unlock();
        fired := fired + 1;
        callback := false;
      } else {
        if code == NO_CODE { code := OPERATION_CANCELED; }
        Unlock();
      }
    }

    method End() returns (result: Code)
      requires !locked
      modifies this`locked
      ensures result == Result(state, code) && Shows() == old(Shows())
      ensures state == Idle || state == Cancelling ==> result == NOT_SUPPORTED
      ensures state == Started ==> result == IN_PROGRESS
      ensures state == Completed ==> result == code
      ensures state == Cancelled ==> result == OPERATION_CANCELED
    {
      Lock();
      match state {
        case Idle => result := NOT_SUPPORTED;
        case Cancelling => result := NOT_SUPPORTED;
        case Started => result := IN_PROGRESS;
        case Completed => result := code;
        case Cancelled => result := OPERATION_CANCELED;
      }
      Unlock();
    }

    /** Cancels the chain below first. `order` tells in which order the operations
        of the chain were told that they are cancelled. A completed operation is
        left as it is. */
    method Cancel(ghost members: seq<AsyncOperation>) returns (order: seq<AsyncOperation>)
      requires Chain(this, members) || Over(this, members)
      requires parent != null ==> parent !in members
      modifies members, Above()
      ensures old(state) == Completed ==> order == [] && Shows() == old(Shows()) && (parent != null ==> parent.Shows() == old(parent.Shows()))
      ensures old(state) == Started ==>
                && order == Reversed(members)
                && (forall i :: 0 <= i < |members| ==> members[i].Shows() == CancelledFace(old(members[i].Shows()), members[i].onCancel))
                && (old(parent) != null ==> old(parent).Shows() == old(parent.Shows()).(child := Nothing))
      decreases |members|, 1
    {
      assert members[0] == this && members[0].state == state && !members[0].locked;
      Lock();
      match state {
        case Started =>
          order := CancelChild(members);
          LockIsReleased(old(Shows()), onCancel);
          hide CancelledFace, Below;
          CancelSelf();
          order := order + [this];
        case Completed =>
          assert !child.To?;
          order := [];
          Unlock();
        case _ => assert false;
      }
    }

    /** The first part of Cancel, with the lock held: the child, if it is alive. */
    method CancelChild(ghost members: seq<AsyncOperation>) returns (order: seq<AsyncOperation>)
      requires Below(this, members) && parent !in members
      modifies members
      ensures Shows() == old(Shows()).(child := if old(child).To? then Nothing else old(child))
      ensures forall i :: 1 <= i < |members| ==> members[i].Shows() == CancelledFace(old(members[i].Shows()), members[i].onCancel)
      ensures order == Reversed(members[1..])
      decreases |members|, 0
    {
      order := [];
      if child.To? {
        hide CancelledFace;
        order := child.op.Cancel(members[1..]);
        child := Nothing;
        assert forall i :: 1 <= i < |members| ==> members[i] == members[1..][i - 1];
      }
    }

    /** The rest of Cancel, entered with the lock held; it is free while OnCancel runs. */
    method CancelSelf()
      requires locked && state == Started && !child.To? && parent != this
      modifies this, Above()
      ensures Shows() == CancelledFace(old(Shows()), onCancel).(locked := false)
      ensures old(parent) != null ==> old(parent).Shows() == old(parent.Shows()).(child := Nothing)
    {
      state := Cancelling;
      Unlock();
      TellCancelled();
      Lock();
      match state {
        case Cancelling => state := Cancelled;
        case _ => assert false;
      }
      Unlock();
      DetachFromParent();
    }

    /** OnCancel, which may complete the operation: that is ignored by now. */
    method TellCancelled()
      requires !locked && state == Cancelling && parent != this
      modifies this
      ensures Shows() == ToldFace(old(Shows()), onCancel)
    {
      onCancelCalls := onCancelCalls + 1;
      if onCancel.Completes? { Complete(onCancel.code); }
    }
  }

  // ---------------------------------------------------------------- the effects

  /** Complete on a cancelled operation only leaves a code behind. */
  function IgnoredFace(f: Face): Face {
    f.(code := if f.code == NO_CODE then OPERATION_CANCELED else f.code)
  }

  function ToldFace(f: Face, onCancel: Hook): Face {
    (if onCancel.Completes? then IgnoredFace(f) else f).(onCancelCalls := f.onCancelCalls + 1)
  }

  /** No callback is fired, and both ends of every live link are cleared. */
  function CancelledFace(f: Face, onCancel: Hook): Face {
    ToldFace(f, onCancel).(state := Cancelled, parent := null, child := if f.child.To? then Nothing else f.child)
  }

  lemma LockIsReleased(f: Face, onCancel: Hook)
    requires !f.locked
    ensures CancelledFace(f.(locked := true, child := if f.child.To? then Nothing else f.child), onCancel).(locked := false) == CancelledFace(f, onCancel)
  {
  }

  /** What End reports; success only of an operation that completed with it. */
  function Result(state: State, code: Code): (result: Code)
    ensures result == NO_CODE <==> state == Completed && code == NO_CODE
    ensures result == IN_PROGRESS && state != Completed <==> state == Started
  {
    match state
    case Idle => NOT_SUPPORTED
    case Cancelling => NOT_SUPPORTED
    case Started => IN_PROGRESS
    case Completed => code
    case Cancelled => OPERATION_CANCELED
  }

  /** What End says of one operation in the course of its life, and in the end the code that
      Complete was given. */
  method StartCompleteEnd(code: Code) returns (atFirst: Code, started: Code, completed: Code)
    ensures atFirst == NOT_SUPPORTED && started == IN_PROGRESS && completed == code
  {
    var op := new AsyncOperation(true, null, Quiet, Quiet);
    atFirst := op.End();
    op.Start();
    started := op.End();
    op.Complete(code);
    completed := op.End();
  }

  /** The same where OnStart completes it, which counts as synchronous. */
  method CompleteInStartAndEnd(code: Code) returns (completed: Code, synchronous: bool, fired: nat)
    ensures completed == code && synchronous && fired == 1
  {
    var op := new AsyncOperation(true, null, Completes(code), Quiet);
    op.Start();
    completed := op.End();
    synchronous, fired := op.synchronous, op.fired;
  }

  /** A started chain: each member is the live child of the one before, and the
      last has no child or one that has expired. */
  ghost predicate Chain(o: AsyncOperation, members: seq<AsyncOperation>)
    reads members
    decreases |members|, 1
  {
    Below(o, members) && members[0].state == Started && !members[0].locked
  }

  /** Completed, and its child has let go of it. */
  ghost predicate Over(o: AsyncOperation, members: seq<AsyncOperation>)
    reads members
  {
    members == [o] && members[0].state == Completed && !members[0].locked && !members[0].child.To?
  }

  ghost predicate Below(o: AsyncOperation, members: seq<AsyncOperation>)
    reads members
    decreases |members|, 0
  {
    && members != [] && members[0] == o && o !in members[1..]
    && (if |members| == 1 then !members[0].child.To?
        else members[0].child == To(members[1]) && members[1].parent == members[0] && Chain(members[1], members[1..]))
  }

  /** The same, said of all members at once. */
  ghost predicate Straight(members: seq<AsyncOperation>)
    reads members
  {
    && (forall i :: 0 <= i < |members| ==> members[i].state == Started && !members[i].locked)
    && (forall i :: 0 <= i < |members| - 1 ==> members[i].child == To(members[i + 1]))
    && (forall i :: 0 < i < |members| ==> members[i].parent == members[i - 1])
    && (members != [] ==> !members[|members| - 1].child.To?)
    && (forall i, j :: 0 <= i < j < |members| ==> members[i] != members[j])
  }

  lemma {:induction false} ChainIsStraight(o: AsyncOperation, members: seq<AsyncOperation>)
    ensures Chain(o, members) <==> members != [] && members[0] == o && Straight(members)
    decreases |members|
  {
    if |members| > 1 {
      var rest := members[1..];
      ChainIsStraight(members[1], rest);
      assert forall i :: 1 <= i < |members| ==> members[i] == rest[i - 1];
      assert forall i :: 0 <= i < |rest| ==> rest[i] == members[i + 1];
    }
  }

  /** As Start leaves an operation whose hooks do nothing. */
  predicate Pristine(f: Face) {
    f.state == Started && f.child != Gone && !f.locked && f.callback && f.fired == 0 && f.onCancelCalls == 0 && f.code == NO_CODE
    && !f.synchronous
  }

  method StartBelow(members: seq<AsyncOperation>, onCancel: Hook) returns (c: AsyncOperation)
    requires members != [] && Straight(members) && members[|members| - 1].child == Nothing
    modifies members[|members| - 1]
    ensures fresh(c) && Straight(members + [c]) && c.onCancel == onCancel && c.child == Nothing && Pristine(c.Shows())
    ensures members[|members| - 1].Shows() == old(members[|members| - 1].Shows()).(child := To(c))
  {
    c := new AsyncOperation(true, members[|members| - 1], Quiet, onCancel);
    c.Start();
  }

  method StartChain(n: nat, onCancel: Hook) returns (members: seq<AsyncOperation>)
    ensures fresh(members) && |members| == n + 1 && Straight(members) && members[0].parent == null
    ensures forall i :: 0 <= i <= n ==> Pristine(members[i].Shows()) && members[i].onCancel == onCancel
  {
    var head := new AsyncOperation(true, null, Quiet, onCancel);
    head.Start();
    members := [head];
    while |members| <= n
      invariant fresh(members) && 1 <= |members| <= n + 1 && members[0].parent == null
      invariant Straight(members) && members[|members| - 1].child == Nothing
      invariant forall i :: 0 <= i < |members| ==> Pristine(members[i].Shows()) && members[i].onCancel == onCancel
    {
      ghost var last := members[|members| - 1];
      assert forall i :: 0 <= i < |members| - 1 ==> members[i] != last;
      hide Straight;
      var c := StartBelow(members, onCancel);
      assert Pristine(last.Shows());
      members := members + [c];
    }
  }

  /** A chain of any length, started member by member and cancelled at its head:
      every member ends up cancelled, with both links cleared, and no callback fired,
      even if OnCancel tries to complete it. */
  method StartAndCancelChain(n: nat, onCancel: Hook) returns (members: seq<AsyncOperation>)
    ensures |members| == n + 1
    ensures forall i :: 0 <= i <= n ==>
              members[i].Shows() == Face(Cancelled, Nothing, null, false, if onCancel.Completes? then OPERATION_CANCELED else NO_CODE, true, 0, 1, false)
  {
    members := StartChain(n, onCancel);
    ChainIsStraight(members[0], members);
    hide Straight, Chain;
    var _ := members[0].Cancel(members);
  }
}
