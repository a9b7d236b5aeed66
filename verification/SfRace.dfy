/** sf::AsyncOperation under a race: one call of Cancel, in two critical sections
    with OnCancel between them, and one call of Complete, on a started operation
    without a child. Statement by statement, in any order the mutex allows. */
module SfRace {
  import opened Threads
  import opened SfOperation

  datatype Who = Canceller | Completer

  datatype CancelPc =
    | EnterFirst | FirstSwitch | LeaveFirst(goesOn: bool)
    | InOnCancel
    | EnterSecond | SecondSwitch | LeaveSecond
    | Detach | CancelReturned

  datatype CompletePc =
    | Enter | Switch | SetCode | DetachLocked | SetCompleted | LeaveWon | Callback | DropCallback
    | Ignore | LeaveIgnored | CompleteReturned

  /** `first` is the call whose switch found the operation still started; `late`
      says that the second switch of Cancel found it completed. */
  datatype Race = Race(state: State, code: Code, given: Code, callback: bool, mutex: Option<Who>,
                       cancel: CancelPc, complete: CompletePc,
                       first: Option<Who>, fired: nat, detached: nat, told: nat, late: bool, broken: bool)

  function Initial(given: Code): Race {
    Race(Started, NO_CODE, given, true, None, EnterFirst, Enter, None, 0, 0, 0, false, false)
  }

  function StepCancel(r: Race): Race {
    match r.cancel
    case EnterFirst => if r.mutex.None? then r.(mutex := Some(Canceller), cancel := FirstSwitch) else r
    case FirstSwitch =>
      match r.state {
        case Started => r.(state := Cancelling, cancel := LeaveFirst(true), first := Some(Canceller))
        case Completed => r.(cancel := LeaveFirst(false))
        case _ => r.(broken := true, cancel := LeaveFirst(false))
      }
    case LeaveFirst(goesOn) => r.(mutex := None, cancel := if goesOn then InOnCancel else CancelReturned)
    case InOnCancel => r.(told := r.told + 1, cancel := EnterSecond)
    case EnterSecond => if r.mutex.None? then r.(mutex := Some(Canceller), cancel := SecondSwitch) else r
    case SecondSwitch =>
      match r.state {
        case Cancelling => r.(state := State.Cancelled, cancel := LeaveSecond)
        case Completed => r.(late := true, cancel := LeaveSecond)
        case _ => r.(broken := true, cancel := LeaveSecond)
      }
    case LeaveSecond => r.(mutex := None, cancel := Detach)
    case Detach => r.(detached := r.detached + 1, cancel := CancelReturned)
    case CancelReturned => r
  }

  function StepComplete(r: Race): Race {
    match r.complete
    case Enter => if r.mutex.None? then r.(mutex := Some(Completer), complete := Switch) else r
    case Switch =>
      match r.state {
        case Started => r.(complete := SetCode, first := Some(Completer))
        case Cancelling => r.(complete := Ignore)
        case Cancelled => r.(complete := Ignore)
        case _ => r.(broken := true, complete := Ignore)
      }
    case SetCode => r.(code := r.given, complete := DetachLocked)
    case DetachLocked => r.(detached := r.detached + 1, complete := SetCompleted)
    case SetCompleted => r.(state := Completed, broken := r.broken || !r.callback, complete := LeaveWon)
    case LeaveWon => r.(mutex := None, complete := Callback)
    case Callback => r.(fired := r.fired + 1, complete := DropCallback)
    case DropCallback => r.(callback := false, complete := CompleteReturned)
    case Ignore => r.(code := if r.code == NO_CODE then OPERATION_CANCELED else r.code, complete := LeaveIgnored)
    case LeaveIgnored => r.(mutex := None, complete := CompleteReturned)
    case CompleteReturned => r
  }

  function Step(r: Race, who: Who): Race {
    if who == Canceller then StepCancel(r) else StepComplete(r)
  }

  function Exec(r: Race, schedule: seq<Who>): Race {
    if schedule == [] then r else Step(Exec(r, schedule[..|schedule| - 1]), schedule[|schedule| - 1])
  }

  // ---------------------------------------------------------------- the invariant

  predicate CancelInside(pc: CancelPc) {
    pc.FirstSwitch? || pc.LeaveFirst? || pc.SecondSwitch? || pc.LeaveSecond?
  }

  predicate CompleteInside(pc: CompletePc) {
    !(pc.Enter? || pc.Callback? || pc.DropCallback? || pc.CompleteReturned?)
  }

  predicate BeforeFirst(pc: CancelPc) {
    pc.EnterFirst? || pc.FirstSwitch?
  }

  predicate BeforeSwitch(pc: CompletePc) {
    pc.Enter? || pc.Switch?
  }

  predicate Settling(pc: CompletePc) {
    pc.SetCode? || pc.DetachLocked? || pc.SetCompleted?
  }

  predicate Undecided(r: Race) {
    BeforeFirst(r.cancel) && BeforeSwitch(r.complete) && r.state == Started && r.detached == 0 && r.fired == 0 && r.told == 0 &&
    r.code == NO_CODE && r.callback
  }

  predicate CancelWins(r: Race) {
    && !BeforeFirst(r.cancel) && r.cancel != LeaveFirst(false)
    && (BeforeSwitch(r.complete) || r.complete in {Ignore, LeaveIgnored, CompleteReturned})
    && r.fired == 0 && r.callback
    && r.state == (if r.cancel in {LeaveFirst(true), InOnCancel, EnterSecond, SecondSwitch} then Cancelling else State.Cancelled)
    && r.detached == (if r.cancel.CancelReturned? then 1 else 0)
    && r.told == (if r.cancel in {LeaveFirst(true), InOnCancel} then 0 else 1)
    && r.code == (if r.complete in {LeaveIgnored, CompleteReturned} then OPERATION_CANCELED else NO_CODE)
  }

  predicate CompleteWins(r: Race) {
    && (BeforeFirst(r.cancel) || r.cancel in {LeaveFirst(false), CancelReturned})
    && !BeforeSwitch(r.complete) && !r.complete.Ignore? && !r.complete.LeaveIgnored?
    && r.told == 0
    && r.state == (if Settling(r.complete) then Started else Completed)
    && (Settling(r.complete) ==> BeforeFirst(r.cancel))
    && r.detached == (if r.complete in {SetCode, DetachLocked} then 0 else 1)
    && r.fired == (if r.complete in {DropCallback, CompleteReturned} then 1 else 0)
    && r.callback == !r.complete.CompleteReturned?
    && r.code == (if r.complete.SetCode? then NO_CODE else r.given)
  }

  predicate Inv(r: Race) {
    && (CancelInside(r.cancel) <==> r.mutex == Some(Canceller))
    && (CompleteInside(r.complete) <==> r.mutex == Some(Completer))
    && !r.late && !r.broken
    && (if r.first.None? then Undecided(r) else if r.first == Some(Canceller) then CancelWins(r) else CompleteWins(r))
  }

  lemma StepKeepsInv(r: Race, who: Who)
    requires Inv(r)
    ensures Inv(Step(r, who))
    ensures r.first.Some? ==> Step(r, who).first == r.first
    ensures r.state in {Completed, State.Cancelled} ==> Step(r, who).state == r.state
    ensures Step(r, who).given == r.given
  {
    hide Inv, StepCancel, StepComplete;
    if who == Canceller { CancelKeepsInv(r); } else { CompleteKeepsInv(r); }
  }

  lemma CancelKeepsInv(r: Race)
    requires Inv(r)
    ensures var r' := StepCancel(r);
            && Inv(r') && r'.given == r.given && (r.first.Some? ==> r'.first == r.first)
            && (r.state in {Completed, State.Cancelled} ==> r'.state == r.state)
  {
  }

  lemma CompleteKeepsInv(r: Race)
    requires Inv(r)
    ensures var r' := StepComplete(r);
            && Inv(r') && r'.given == r.given && (r.first.Some? ==> r'.first == r.first)
            && (r.state in {Completed, State.Cancelled} ==> r'.state == r.state)
  {
  }

  lemma {:induction false} ExecKeepsInv(given: Code, schedule: seq<Who>)
    ensures Inv(Exec(Initial(given), schedule)) && Exec(Initial(given), schedule).given == given
  {
    if schedule != [] {
      ExecKeepsInv(given, schedule[..|schedule| - 1]);
      StepKeepsInv(Exec(Initial(given), schedule[..|schedule| - 1]), schedule[|schedule| - 1]);
    }
  }

  // ---------------------------------------------------------------- what holds in every run

  /** The callback is fired when Complete wins and never otherwise, OnCancel is
      called when Cancel wins and never otherwise, the parent's link is reset by
      one of them only, and the completed branch of Cancel's second switch is
      never taken, nor any asserting one. */
  lemma OneSideWins(given: Code, schedule: seq<Who>)
    ensures var r := Exec(Initial(given), schedule);
            && !r.late && !r.broken && r.fired + r.told <= 1 && r.detached <= 1
            && (r.fired == 1 ==> r.state == Completed)
            && (r.told == 1 ==> r.state in {Cancelling, State.Cancelled})
            && (r.cancel.CancelReturned? && r.complete.CompleteReturned? ==>
                  && r.detached == 1
                  && (if r.first == Some(Canceller) then r.state == State.Cancelled && r.fired == 0 && r.told == 1 && r.code == OPERATION_CANCELED
                      else r.state == Completed && r.fired == 1 && r.told == 0 && r.code == given))
  {
    ExecKeepsInv(given, schedule);
  }

  /** What each assertion is about, when its statement comes next: the first switch of Cancel
      finds the operation started or completed, the second still cancelling, Complete
      finds it started or being cancelled, and the callback is there to be fired. */
  lemma AssertionsHold(given: Code, schedule: seq<Who>)
    ensures var r := Exec(Initial(given), schedule);
            && (r.cancel.FirstSwitch? ==> r.state in {Started, Completed})
            && (r.cancel.SecondSwitch? ==> r.state == Cancelling)
            && (r.complete.Switch? ==> r.state in {Started, Cancelling, State.Cancelled})
            && (r.complete.SetCompleted? || r.complete.Callback? ==> r.callback)
  {
    ExecKeepsInv(given, schedule);
  }

  /** What End reports at any time of the race: the given code once the callback has
      been fired, the cancellation once that is final, and success only if Complete
      has won with it. */
  lemma EndTellsTheWinner(given: Code, schedule: seq<Who>)
    ensures var r := Exec(Initial(given), schedule);
            && (r.fired == 1 ==> Result(r.state, r.code) == given)
            && (r.state == State.Cancelled ==> Result(r.state, r.code) == OPERATION_CANCELED)
            && (Result(r.state, r.code) == NO_CODE ==> r.first == Some(Completer) && given == NO_CODE)
            && (r.cancel.CancelReturned? && r.complete.CompleteReturned? ==>
                  Result(r.state, r.code) == if r.first == Some(Canceller) then OPERATION_CANCELED else given)
  {
    ExecKeepsInv(given, schedule);
    var r := Exec(Initial(given), schedule);
    if r.first.Some? && r.first.value == Completer { assert r.first == Some(Completer); }
    if r.first.Some? && r.first.value == Canceller { assert r.first == Some(Canceller); }
  }

  /** Completed and cancelled are final. */
  lemma {:induction false} FinalStatesStay(given: Code, schedule: seq<Who>, more: seq<Who>)
    ensures var r, r' := Exec(Initial(given), schedule), Exec(Initial(given), schedule + more);
            && (r.state in {Completed, State.Cancelled} ==> r'.state == r.state)
            && (r.first.Some? ==> r'.first == r.first)
  {
    if more == [] {
      assert schedule + more == schedule;
    } else {
      var n := |more| - 1;
      FinalStatesStay(given, schedule, more[..n]);
      assert (schedule + more)[..|schedule + more| - 1] == schedule + more[..n];
      ExecKeepsInv(given, schedule + more[..n]);
      StepKeepsInv(Exec(Initial(given), schedule + more[..n]), more[n]);
    }
  }
}
