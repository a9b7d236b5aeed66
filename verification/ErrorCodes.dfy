/** Error codes: values that remember whether anyone has read them, and the
    tracker that keeps the first error of many. Values are abstract integers. */
module ErrorCodes {

  type Value = int

  const SUCCESS: Value := 0
  const OPERATION_CANCELED: Value := -0x7FFFBFFC // E_ABORT, 0x80004004 as a signed 32-bit integer

  datatype ErrorState = ErrorState(value: Value, message: string, read: bool, check: bool)

  const NO_ERROR := ErrorState(SUCCESS, "", false, false)

  function Of(value: Value): ErrorState {
    ErrorState(value, "", false, false)
  }

  /** What plain assignment leaves in the target. */
  function Assigned(source: ErrorState): ErrorState {
    ErrorState(source.value, source.message, false, true)
  }

  /** The assertion made before a plain assignment: an error that was assigned
      and that nobody has read must not be lost. */
  predicate MayAssign(target: ErrorState) {
    target.check ==> target.read
  }

  /** The assertion made by Overwrite: an error is not replaced by success. */
  predicate MayOverwrite(target: ErrorState, source: ErrorState) {
    target.value != SUCCESS ==> source.value != SUCCESS
  }

  class ErrorCode {
    var value: Value
    var message: string
    var read: bool
    var check: bool

    function State(): ErrorState
      reads this
    {
      ErrorState(value, message, read, check)
    }

    constructor (v: Value)
      ensures State() == ErrorState(v, "", false, false)
    {
      value, message, read, check := v, "", false, false;
    }

    /** Copying reads the original; the copy starts unread and unchecked. */
    constructor Copy(other: ErrorCode)
      modifies other`read
      ensures State() == ErrorState(old(other.value), old(other.message), false, false)
      ensures other.State() == old(other.State()).(read := true)
    {
      value, message, read, check := other.value, other.message, false, false;
      new;
      other.read := true;
    }

    method ReadValue() returns (v: Value)
      modifies this`read
      ensures v == value && State() == old(State()).(read := true)
    {
      read := true;
      v := value;
    }

    method TryAssignFrom(other: ErrorCode, allowOverwrite: bool) returns (changed: bool)
      requires other != this ==> if allowOverwrite then value != SUCCESS ==> other.value != SUCCESS else check ==> read
      modifies this, other`read
      ensures changed == (other != this)
      ensures State() == if changed then ErrorState(old(other.value), old(message), false, true) else old(State())
      ensures changed ==> other.State() == old(other.State()).(read := true)
    {
      if this == other {
        return false;
      }
      var otherValue := other.ReadValue();
      if allowOverwrite {
        assert !(value != SUCCESS && otherValue == SUCCESS);
      } else {
        assert !(check && !read);
      }
      value, read, check := otherValue, false, true;
      return true;
    }

    /** operator= and Overwrite differ in what they assert only. */
    method Assign(other: ErrorCode, allowOverwrite: bool)
      requires other != this ==> if allowOverwrite then MayOverwrite(State(), other.State()) else MayAssign(State())
      modifies this, other`read
      ensures State() == if other != this then ErrorState(old(other.value), old(other.message), false, true) else old(State())
      ensures other != this ==> other.State() == old(other.State()).(read := true)
    {
      var changed := TryAssignFrom(other, allowOverwrite);
      if changed { message := other.message; }
    }

    /** The message survives: only value and marks are replaced. */
    method Reset(newValue: Value)
      requires MayAssign(State())
      modifies this
      ensures State() == ErrorState(newValue, old(message), false, false)
    {
      var other := new ErrorCode(newValue);
      var changed := TryAssignFrom(other, false);
      if changed { check := false; }
    }
  }

  /** An assignment that nobody has read forbids the next one, and a read allows it. */
  method AssignTwice(first: Value, second: Value) returns (allowedUnread: bool, got: Value)
    ensures got == second && !allowedUnread
  {
    var target := new ErrorCode(SUCCESS);
    var a := new ErrorCode(first);
    var b := new ErrorCode(second);
    target.Assign(a, false);
    allowedUnread := MayAssign(target.State());
    var _ := target.ReadValue();
    target.Assign(b, false);
    got := target.ReadValue();
  }

  // ---------------------------------------------------------------- first error

  function FirstError(left: Value, right: Value): Value {
    if left != SUCCESS then left else right
  }

  /** The tracker's value after a sequence of updates, in the order of their swaps. */
  function Fold(start: Value, updates: seq<Value>): Value {
    if updates == [] then start else FirstError(Fold(start, updates[..|updates| - 1]), updates[|updates| - 1])
  }

  /** `updates` is the history of the swaps, whichever threads made them. */
  class FirstErrorTracker {
    var value: Value
    ghost var updates: seq<Value>

    ghost predicate Valid()
      reads this
    {
      value == Fold(SUCCESS, updates)
    }

    constructor ()
      ensures Valid() && updates == []
    {
      value, updates := SUCCESS, [];
    }

    method InterlockedCompareExchange(desired: Value, comparand: Value) returns (previous: Value)
      modifies this`value
      ensures previous == old(value)
      ensures value == if old(value) == comparand then desired else old(value)
    {
      previous := value;
      if value == comparand { value := desired; }
    }

    method Update(newValue: ErrorCode)
      requires Valid()
      modifies this, newValue`read
      ensures Valid() && updates == old(updates) + [newValue.value]
    {
      var v := newValue.ReadValue();
      var previous := InterlockedCompareExchange(v, SUCCESS);
      updates := updates + [v];
      assert updates[..|updates| - 1] == old(updates);
    }
  }

  /** The fold is the earliest failure of the sequence, and success only if all succeed. */
  lemma {:induction false} FoldIsEarliestFailure(updates: seq<Value>)
    ensures Fold(SUCCESS, updates) == SUCCESS <==> forall i :: 0 <= i < |updates| ==> updates[i] == SUCCESS
    ensures Fold(SUCCESS, updates) != SUCCESS ==>
              exists i :: 0 <= i < |updates| && updates[i] == Fold(SUCCESS, updates) &&
                          forall k :: 0 <= k < i ==> updates[k] == SUCCESS
  {
    if updates != [] {
      var n := |updates| - 1;
      FoldIsEarliestFailure(updates[..n]);
      if Fold(SUCCESS, updates[..n]) != SUCCESS {
        var i :| 0 <= i < n && updates[..n][i] == Fold(SUCCESS, updates[..n]) &&
                 forall k :: 0 <= k < i ==> updates[..n][k] == SUCCESS;
        assert updates[i] == Fold(SUCCESS, updates) && forall k :: 0 <= k < i ==> updates[k] == updates[..n][k];
      } else {
        assert forall k :: 0 <= k < n ==> updates[k] == updates[..n][k];
      }
    }
  }

  // ---------------------------------------------------------------- the public boundary

  /** Two internal codes are reported to COM under the code of another error. */
  datatype Aliases = Aliases(sameRuntime: Value, alreadyRegistered: Value, notOwned: Value, notRegistered: Value)

  function ToHResult(a: Aliases, value: Value): Value {
    if value == a.sameRuntime then a.alreadyRegistered
    else if value == a.notOwned then a.notRegistered
    else value
  }

  function FromHResult(hr: Value): Value {
    if hr >= 0 then SUCCESS else hr
  }

  /** What a client can tell apart: two codes leave as the same HRESULT if and only if they
      are equal or one is the public name of the other; and the public ones leave as
      they are. */
  lemma ClientSees(a: Aliases, x: Value, y: Value)
    requires a.sameRuntime != a.notOwned && a.alreadyRegistered != a.notRegistered
    requires a.alreadyRegistered !in {a.sameRuntime, a.notOwned} && a.notRegistered !in {a.sameRuntime, a.notOwned}
    ensures ToHResult(a, x) == ToHResult(a, y) <==>
              || x == y
              || {x, y} == {a.sameRuntime, a.alreadyRegistered}
              || {x, y} == {a.notOwned, a.notRegistered}
    ensures x !in {a.sameRuntime, a.notOwned} ==> ToHResult(a, x) == x
  {
    assert x in {x, y} && y in {x, y};
    if {x, y} == {a.sameRuntime, a.alreadyRegistered} { assert a.sameRuntime in {x, y} && a.alreadyRegistered in {x, y}; }
    if {x, y} == {a.notOwned, a.notRegistered} { assert a.notOwned in {x, y} && a.notRegistered in {x, y}; }
  }

  /** A result survives the boundary exactly when it is S_OK or a failure that is
      not one of the two internal codes. */
  lemma HResultRoundTrips(a: Aliases, hr: Value)
    requires a.sameRuntime != a.notOwned
    requires a.alreadyRegistered !in {a.sameRuntime, a.notOwned} && a.notRegistered !in {a.sameRuntime, a.notOwned}
    requires a.sameRuntime != SUCCESS && a.notOwned != SUCCESS
    ensures ToHResult(a, FromHResult(hr)) == hr <==> hr == SUCCESS || (hr < 0 && hr !in {a.sameRuntime, a.notOwned})
    ensures ToHResult(a, ToHResult(a, hr)) == ToHResult(a, hr)
  {
  }
}
