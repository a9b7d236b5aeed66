/** One asynchronous operation under any number of threads that complete it,
    cancel it, and attach and detach its children, statement by statement. Calls on
    the lifecycle word are atomic, as the interleaved word is proved to be; a
    callback that calls back into the operation is one more thread. */
module OperationRaces {
  import opened Threads
  import opened LifecycleWord
  import opened ErrorCodes

  type Child = nat

  datatype Request = TryComplete(error: Value) | Cancel(force: bool) | Attach(child: Child) | Detach(child: Child)

  /** Where a thread is: one constructor for each statement of the methods named. */
  datatype Pc =
    | Idle
    | Trying(error: Value)                       // TryComplete, before its outcome
    | Finishing(finish: FinishPc)
    | Cancelling(force: bool, cancel: CancelPc)
    | Listing(child: Child, list: ListPc)

  /** FinishComplete and Cleanup, which the winner runs. */
  datatype FinishPc =
    | CancelHook | Assigning(error: Value) | Transitioning | Notifying | Calling
    | CleanLock | CleanClear | CleanUnlock | DetachSelf | DropCallback

  /** Cancel: mark, sweep the children under the lock, cancel them, then itself. */
  datatype CancelPc =
    | Marking | SweepLock | Sweeping(i: nat, found: seq<Child>) | SweepClear(found: seq<Child>)
    | SweepUnlock(found: seq<Child>) | Recursing(rest: seq<Child>) | Deciding | Signalling

  /** AttachChild and DetachChild. */
  datatype ListPc =
    | AttachLock | AttachCheckComplete | AttachCheckCancel | AttachPush | AttachUnlock
    | DetachLock | DetachRemove | DetachUnlock

  /** The fields of the object; `Kids` is what the child lock protects. */
  datatype Operation = Operation(view: View, error: ErrorState, callback: bool)
  datatype Kids = Kids(lock: Option<Tid>, children: seq<Child>)

  datatype Fire = Fire(life: Life, error: Value)

  /** What has happened to the operation itself so far. */
  datatype Done = Done(wins: nat, winner: Option<Value>, owner: Option<Tid>, refused: bool,
                       fired: seq<Fire>, cleaned: bool, broken: bool)

  /** What has happened to its children. `owed` are those whose attach succeeded
      and that have not been detached since. */
  datatype Family = Family(owed: set<Child>, sweeper: Option<Tid>, swept: bool, cleanedFirst: bool,
                           snapshot: seq<Child>, cancelCalls: seq<Child>)

  datatype State = State(skip: bool, hasCallback: bool, op: Operation, kids: Kids, expired: set<Child>,
                         threads: map<Tid, Pc>, done: Done, family: Family)

  datatype Event =
    | Begin(tid: Tid, request: Request)
    | Go(tid: Tid)
    | Word(call: Call)
    | ReadError
    | Expire(child: Child)

  const UNDONE := Done(0, None, None, false, [], false, false)
  const CHILDLESS := Family({}, None, false, false, [], [])

  function Initial(skip: bool, hasCallback: bool): State {
    State(skip, hasCallback, Operation(FRESH, NO_ERROR, hasCallback), Kids(None, []), {}, map[], UNDONE, CHILDLESS)
  }

  function PcOf(s: State, t: Tid): Pc {
    if t in s.threads then s.threads[t] else Idle
  }

  function FirstPc(r: Request): Pc {
    match r
    case TryComplete(error) => Trying(error)
    case Cancel(force) => Cancelling(force, Marking)
    case Attach(child) => Listing(child, AttachLock)
    case Detach(child) => Listing(child, DetachLock)
  }

  /** remove_if: the child itself and every expired entry. */
  function Without(children: seq<Child>, child: Child, expired: set<Child>): (r: seq<Child>)
    ensures forall c :: c in r <==> c in children && c != child && c !in expired
  {
    if children == [] then []
    else
      var last := children[|children| - 1];
      var rest := Without(children[..|children| - 1], child, expired);
      assert children == children[..|children| - 1] + [last];
      if last == child || last in expired then rest else rest + [last]
  }

  // ---------------------------------------------------------------- the statements

  datatype Finish = Finish(pc: Pc, op: Operation, done: Done)

  /** TryStartComplete, with the error the caller will finish with. */
  function StartComplete(t: Tid, error: Value, onWin: FinishPc, op: Operation, done: Done): Finish {
    var o := Atomic(BeginComplete, op.view);
    if o.answer == Swapped(true) then
      Finish(Finishing(onWin), op.(view := o.view), done.(wins := done.wins + 1, winner := Some(error), owner := Some(t)))
    else
      Finish(Idle, op, done.(refused := done.refused || op.view.life != Created))
  }

  /** FinishComplete, FinishCompleteInternal and Cleanup, but for the child list. */
  function FinishStep(at: FinishPc, op: Operation, done: Done): Finish {
    match at
    case CancelHook => Finish(Finishing(Assigning(OPERATION_CANCELED)), op, done)
    case Assigning(error) =>
      Finish(Finishing(Transitioning), op.(error := Assigned(Of(error))), done.(broken := done.broken || !MayAssign(op.error)))
    case Transitioning =>
      var o := Atomic(Complete, op.view);
      Finish(Finishing(Notifying), op.(view := o.view), done.(broken := done.broken || o.answer != Swapped(true)))
    case Notifying => Finish(Finishing(Calling), op, done)
    case Calling =>
      var fire := Fire(op.view.life, op.error.value);
      Finish(Finishing(CleanLock), op, if op.callback then done.(fired := done.fired + [fire]) else done)
    case CleanLock => Finish(Finishing(CleanClear), op, done)
    case CleanClear => Finish(Finishing(CleanUnlock), op, done.(cleaned := true))
    case CleanUnlock => Finish(Finishing(DetachSelf), op, done)
    case DetachSelf => Finish(Finishing(DropCallback), op, done)
    case DropCallback => Finish(Idle, op.(callback := false), done)
  }

  function CleanStep(t: Tid, at: FinishPc, kids: Kids): Kids {
    match at
    case CleanLock => kids.(lock := Some(t))
    case CleanClear => kids.(children := [])
    case CleanUnlock => kids.(lock := None)
    case _ => kids
  }

  datatype Sweep = Sweep(cancel: CancelPc, kids: Kids, family: Family)

  /** Cancel between its mark and its attempt to complete the operation. */
  function SweepStep(t: Tid, at: CancelPc, cleaned: bool, kids: Kids, expired: set<Child>, family: Family): Sweep {
    match at
    case SweepLock => Sweep(Sweeping(0, []), kids.(lock := Some(t)), family)
    case Sweeping(i, found) =>
      if i < |kids.children| then
        var c := kids.children[i];
        Sweep(Sweeping(i + 1, if c in expired then found else found + [c]), kids, family)
      else Sweep(SweepClear(found), kids, family)
    case SweepClear(found) =>
      Sweep(SweepUnlock(found), kids.(children := []), family.(swept := true, snapshot := found, cleanedFirst := cleaned))
    case SweepUnlock(found) => Sweep(Recursing(found), kids.(lock := None), family)
    case Recursing(rest) =>
      if rest == [] then Sweep(Deciding, kids, family)
      else Sweep(Recursing(rest[1..]), kids, family.(cancelCalls := family.cancelCalls + [rest[0]]))
    case _ => Sweep(at, kids, family)
  }

  datatype Listed = Listed(pc: Pc, kids: Kids, owed: set<Child>)

  function ListStep(t: Tid, child: Child, at: ListPc, view: View, kids: Kids, expired: set<Child>, owed: set<Child>): Listed {
    match at
    case AttachLock => Listed(Listing(child, AttachCheckComplete), kids.(lock := Some(t)), owed)
    case AttachCheckComplete =>
      Listed(Listing(child, if Stage(view.life) >= 2 then AttachUnlock else AttachCheckCancel), kids, owed)
    case AttachCheckCancel => Listed(Listing(child, if view.cancelled then AttachUnlock else AttachPush), kids, owed)
    case AttachPush => Listed(Listing(child, AttachUnlock), kids.(children := kids.children + [child]), owed + {child})
    case AttachUnlock => Listed(Idle, kids.(lock := None), owed)
    case DetachLock => Listed(Listing(child, DetachRemove), kids.(lock := Some(t)), owed)
    case DetachRemove =>
      Listed(Listing(child, DetachUnlock), kids.(children := Without(kids.children, child, expired)), owed - {child})
    case DetachUnlock => Listed(Idle, kids.(lock := None), owed)
  }

  predicate WaitsForLock(pc: Pc) {
    match pc
    case Finishing(at) => at.CleanLock?
    case Cancelling(_, at) => at.SweepLock?
    case Listing(_, at) => at.AttachLock? || at.DetachLock?
    case _ => false
  }

  function At(s: State, t: Tid, pc: Pc): State {
    s.(threads := s.threads[t := pc])
  }

  function Completing(s: State, t: Tid, error: Value, onWin: FinishPc): State {
    var n := StartComplete(t, error, onWin, s.op, s.done);
    At(s, t, n.pc).(op := n.op, done := n.done)
  }

  function RunFinish(s: State, t: Tid, at: FinishPc): State {
    var n := FinishStep(at, s.op, s.done);
    At(s, t, n.pc).(op := n.op, done := n.done, kids := CleanStep(t, at, s.kids))
  }

  function RunCancel(s: State, t: Tid, force: bool, at: CancelPc): State {
    match at
    case Marking =>
      var o := Atomic(RequestCancel, s.op.view);
      if o.answer == Swapped(true) then
        At(s, t, Cancelling(force, SweepLock)).(op := s.op.(view := o.view), family := s.family.(sweeper := Some(t)))
      else At(s, t, Idle)
    case Deciding =>
      if !force && s.skip then At(s, t, Cancelling(force, Signalling))
      else Completing(s, t, OPERATION_CANCELED, CancelHook)
    case Signalling => At(s, t, Idle)
    case _ =>
      var n := SweepStep(t, at, s.done.cleaned, s.kids, s.expired, s.family);
      At(s, t, Cancelling(force, n.cancel)).(kids := n.kids, family := n.family)
  }

  function RunList(s: State, t: Tid, child: Child, at: ListPc): State {
    var n := ListStep(t, child, at, s.op.view, s.kids, s.expired, s.family.owed);
    At(s, t, n.pc).(kids := n.kids, family := s.family.(owed := n.owed))
  }

  /** The next statement of thread t; a thread that needs the lock waits for it. */
  function Run(s: State, t: Tid): State {
    var pc := PcOf(s, t);
    if WaitsForLock(pc) && s.kids.lock.Some? then s
    else
      match pc
      case Idle => s
      case Trying(error) => Completing(s, t, error, Assigning(error))
      case Finishing(at) => RunFinish(s, t, at)
      case Cancelling(force, at) => RunCancel(s, t, force, at)
      case Listing(child, at) => RunList(s, t, child, at)
  }

  /** Start runs once; the operation is observed only once started; End and
      looking at the word are possible at any time. */
  predicate WordCallAllowed(call: Call, v: View) {
    match call
    case Start => v.life == Created
    case Observe => v.life != Created
    case End => true
    case Peek => true
    case _ => false
  }

  function Step(s: State, e: Event): State {
    match e
    case Begin(t, request) => if PcOf(s, t).Idle? then At(s, t, FirstPc(request)) else s
    case Go(t) => Run(s, t)
    case Word(call) =>
      if WordCallAllowed(call, s.op.view) then s.(op := s.op.(view := Atomic(call, s.op.view).view)) else s
    case ReadError => s.(op := s.op.(error := s.op.error.(read := true)))
    case Expire(child) => s.(expired := s.expired + {child})
  }

  function Exec(s: State, es: seq<Event>): State {
    if es == [] then s else Step(Exec(s, es[..|es| - 1]), es[|es| - 1])
  }

  // ---------------------------------------------------------------- completion is won once

  /** How far the winner has come with FinishComplete and Cleanup. */
  datatype Phase = Claimed | Stored | Published | Called | Cleaned | Finished

  function PhaseOf(pc: Pc): Phase {
    if !pc.Finishing? then Finished
    else
      match pc.finish
      case CancelHook => Claimed
      case Assigning(_) => Claimed
      case Transitioning => Stored
      case Notifying => Published
      case Calling => Published
      case CleanLock => Called
      case CleanClear => Called
      case _ => Cleaned
  }

  /** The callback has been called with the winner's error, if there was one to call. */
  predicate FiredOnce(hasCallback: bool, fired: seq<Fire>, winner: Value) {
    && |fired| == (if hasCallback then 1 else 0)
    && (hasCallback ==> Stage(fired[0].life) >= 3 && fired[0].error == winner)
  }

  predicate WinnerAt(hasCallback: bool, op: Operation, done: Done, phase: Phase)
    requires done.winner.Some?
  {
    && (if phase in {Claimed, Stored} then op.view.life == Life.Completing else Stage(op.view.life) >= 3)
    && (if phase == Claimed then !op.error.check else op.error.value == done.winner.value)
    && (if phase in {Claimed, Stored, Published} then done.fired == [] else FiredOnce(hasCallback, done.fired, done.winner.value))
    && done.cleaned == (phase in {Cleaned, Finished})
    && op.callback == (hasCallback && phase != Finished)
  }

  /** The error that the winner is about to store. */
  predicate CarriesWinner(pc: Pc, done: Done) {
    pc.Finishing? ==>
      && (pc.finish.Assigning? ==> done.winner == Some(pc.finish.error))
      && (pc.finish.CancelHook? ==> done.winner == Some(OPERATION_CANCELED))
  }

  predicate Undecided(hasCallback: bool, op: Operation, done: Done) {
    && Stage(op.view.life) <= 1 && done == UNDONE
    && op.callback == hasCallback && !op.error.check && op.error.value == SUCCESS
  }

  predicate Decided(hasCallback: bool, op: Operation, done: Done, pc: Pc) {
    && done.wins == 1 && !done.broken && done.winner.Some?
    && WinnerAt(hasCallback, op, done, PhaseOf(pc)) && CarriesWinner(pc, done)
  }

  ghost predicate CompletionInv(s: State) {
    && (forall t :: t in s.threads && s.threads[t].Finishing? ==> s.done.owner == Some(t))
    && (if s.done.owner.None? then Undecided(s.hasCallback, s.op, s.done)
        else Decided(s.hasCallback, s.op, s.done, PcOf(s, s.done.owner.value)))
  }

  lemma FinishKeepsDecided(hasCallback: bool, at: FinishPc, op: Operation, done: Done)
    requires Decided(hasCallback, op, done, Finishing(at))
    ensures var n := FinishStep(at, op, done);
            && Decided(hasCallback, n.op, n.done, n.pc)
            && n.done.owner == done.owner && n.done.winner == done.winner
            && (op.view.life in {Completed, Ended} ==> n.op.view == op.view)
  {
  }

  lemma StartCompleteDecides(s: State, t: Tid, error: Value, onWin: FinishPc)
    requires CompletionInv(s) && !PcOf(s, t).Finishing?
    requires onWin == Assigning(error) || (onWin == CancelHook && error == OPERATION_CANCELED)
    ensures CompletionInv(Completing(s, t, error, onWin))
    ensures s.op.view.life in {Completed, Ended} ==>
              Completing(s, t, error, onWin).op == s.op && Completing(s, t, error, onWin).done.winner == s.done.winner
  {
  }

  /** A step of another thread that leaves the completion alone. */
  lemma OthersKeepCompletion(s: State, s': State, t: Tid)
    requires CompletionInv(s) && !PcOf(s, t).Finishing?
    requires s'.threads == s.threads[t := PcOf(s', t)] && !PcOf(s', t).Finishing? && s'.hasCallback == s.hasCallback
    requires s'.op.view.life == s.op.view.life && s'.op.error == s.op.error && s'.op.callback == s.op.callback && s'.done == s.done
    ensures CompletionInv(s')
  {
  }

  lemma FinishingKeepsCompletion(s: State, t: Tid)
    requires CompletionInv(s) && PcOf(s, t).Finishing?
    ensures CompletionInv(RunFinish(s, t, PcOf(s, t).finish))
  {
    hide FinishStep, CleanStep, Undecided, WinnerAt;
    FinishKeepsDecided(s.hasCallback, PcOf(s, t).finish, s.op, s.done);
  }

  lemma GoKeepsCompletion(s: State, t: Tid)
    requires CompletionInv(s)
    ensures CompletionInv(Run(s, t))
  {
    hide FinishStep, SweepStep, ListStep, CleanStep, CompletionInv, Completing, RunFinish;
    match PcOf(s, t)
    case Idle =>
    case Trying(error) => StartCompleteDecides(s, t, error, Assigning(error));
    case Finishing(at) => FinishingKeepsCompletion(s, t);
    case Cancelling(force, at) =>
      if at.Deciding? && !(!force && s.skip) { StartCompleteDecides(s, t, OPERATION_CANCELED, CancelHook); }
      else { OthersKeepCompletion(s, RunCancel(s, t, force, at), t); }
    case Listing(child, at) => ListingKeepsCompletion(s, t, child, at);
  }

  lemma ListingKeepsCompletion(s: State, t: Tid, child: Child, at: ListPc)
    requires CompletionInv(s) && PcOf(s, t) == Listing(child, at)
    ensures CompletionInv(RunList(s, t, child, at))
  {
    hide CompletionInv, Without;
    OthersKeepCompletion(s, RunList(s, t, child, at), t);
  }

  lemma StepKeepsCompletion(s: State, e: Event)
    requires CompletionInv(s)
    ensures CompletionInv(Step(s, e))
  {
    hide Run;
    match e
    case Begin(t, request) => if PcOf(s, t).Idle? { OthersKeepCompletion(s, Step(s, e), t); }
    case Go(t) => GoKeepsCompletion(s, t);
    case Word(call) =>
    case ReadError =>
    case Expire(child) =>
  }

  // ---------------------------------------------------------------- no child is missed

  predicate HoldsLock(pc: Pc) {
    match pc
    case Finishing(at) => at.CleanClear? || at.CleanUnlock?
    case Cancelling(_, at) => at.Sweeping? || at.SweepClear? || at.SweepUnlock?
    case Listing(_, at) => !at.AttachLock? && !at.DetachLock?
    case _ => false
  }

  predicate Sweeps(pc: Pc) {
    pc.Cancelling? && !pc.cancel.Marking? && !pc.cancel.Deciding? && !pc.cancel.Signalling?
  }

  predicate AttachChecked(pc: Pc) {
    pc.Listing? && (pc.list.AttachCheckCancel? || pc.list.AttachPush?)
  }

  predicate ThreadFacts(t: Tid, pc: Pc, kids: Kids, cleaned: bool, family: Family) {
    && (HoldsLock(pc) ==> kids.lock == Some(t))
    && (Sweeps(pc) ==> family.sweeper == Some(t))
    && (AttachChecked(pc) ==> !cleaned && (pc.list.AttachPush? ==> !family.swept))
  }

  /** The snapshot under construction: every child looked at is in it or has expired. */
  predicate Collected(children: seq<Child>, upTo: nat, found: seq<Child>, expired: set<Child>) {
    && upTo <= |children|
    && (forall k :: 0 <= k < upTo ==> children[k] in expired || children[k] in found)
    && (forall c :: c in found ==> c in children)
  }

  /** What holds when the thread whose cancel was the first is at pc. */
  predicate SweepFacts(kids: Kids, family: Family, expired: set<Child>, pc: Pc) {
    if !Sweeps(pc) then family.swept && family.cancelCalls == family.snapshot
    else
      match pc.cancel
      case SweepLock => !family.swept && family.cancelCalls == []
      case Sweeping(i, found) => !family.swept && family.cancelCalls == [] && Collected(kids.children, i, found, expired)
      case SweepClear(found) =>
        !family.swept && family.cancelCalls == [] && Collected(kids.children, |kids.children|, found, expired)
      case SweepUnlock(found) => family.swept && family.cancelCalls == [] && found == family.snapshot
      case Recursing(rest) => family.swept && family.cancelCalls + rest == family.snapshot
  }

  /** No owed child is missing from the list, unless it has expired. */
  predicate Covered(owed: set<Child>, list: seq<Child>, expired: set<Child>) {
    forall c :: c in owed ==> c in expired || c in list
  }

  predicate Shared(view: View, kids: Kids, cleaned: bool, family: Family, expired: set<Child>) {
    && (family.sweeper.Some? <==> view.cancelled)
    && (family.sweeper.None? ==> !family.swept && family.cancelCalls == [])
    && (cleaned ==> Stage(view.life) >= 3)
    && (if family.swept || cleaned then kids.children == [] else Covered(family.owed, kids.children, expired))
    && (family.swept ==>
          if family.cleanedFirst then cleaned && family.snapshot == [] else Covered(family.owed, family.snapshot, expired))
  }

  ghost predicate ChildInv(s: State) {
    && Shared(s.op.view, s.kids, s.done.cleaned, s.family, s.expired)
    && (forall t :: t in s.threads ==> ThreadFacts(t, s.threads[t], s.kids, s.done.cleaned, s.family))
    && (s.family.sweeper.Some? ==> SweepFacts(s.kids, s.family, s.expired, PcOf(s, s.family.sweeper.value)))
  }

  /** What the other threads may rely on when t takes a step. */
  predicate OthersUndisturbed(s: State, s': State, t: Tid) {
    && (s'.kids.lock == s.kids.lock || s.kids.lock.None? || s.kids.lock == Some(t))
    && (s.kids.lock == Some(t) ||
        (s'.kids.children == s.kids.children && s'.done.cleaned == s.done.cleaned && s'.family.swept == s.family.swept))
    && (s'.family.(owed := s.family.owed) == s.family || s'.family.sweeper == Some(t))
    && (s'.family.sweeper == s.family.sweeper || s.family.sweeper.None?)
    && s'.expired == s.expired
  }

  /** The step of t keeps the shared facts and those of t itself. */
  predicate OwnStepOk(s: State, s': State, t: Tid) {
    && Shared(s'.op.view, s'.kids, s'.done.cleaned, s'.family, s'.expired)
    && ThreadFacts(t, PcOf(s', t), s'.kids, s'.done.cleaned, s'.family)
    && (s'.family.sweeper == Some(t) ==> SweepFacts(s'.kids, s'.family, s'.expired, PcOf(s', t)))
    && OthersUndisturbed(s, s', t)
    && s'.threads == s.threads[t := PcOf(s', t)]
  }

  lemma ListStaysCovered(owed: set<Child>, list: seq<Child>, c: Child, expired: set<Child>)
    ensures Covered(owed, list, expired) ==>
              Covered(owed + {c}, list + [c], expired) && Covered(owed - {c}, Without(list, c, expired), expired)
    ensures Covered(owed, list, expired) ==> Covered(owed - {c}, list, expired)
    ensures Without([], c, expired) == []
  {
    if Covered(owed, list, expired) {
      assert forall d :: d in list ==> d in list + [c];
    }
  }

  lemma SweptIsCovered(owed: set<Child>, children: seq<Child>, found: seq<Child>, expired: set<Child>)
    requires Collected(children, |children|, found, expired)
    ensures Covered(owed, children, expired) ==> Covered(owed, found, expired)
    ensures children == [] ==> found == []
  {
    if found != [] { assert found[0] in children; }
  }

  lemma CollectsNothingYet(children: seq<Child>, expired: set<Child>)
    ensures Collected(children, 0, [], expired)
  {
  }

  lemma CollectsOneMore(children: seq<Child>, i: nat, found: seq<Child>, expired: set<Child>)
    requires Collected(children, i, found, expired)
    ensures i < |children| ==>
              Collected(children, i + 1, if children[i] in expired then found else found + [children[i]], expired)
    ensures i >= |children| ==> i == |children|
  {
  }

  lemma ListStepOk(s: State, t: Tid, child: Child, at: ListPc)
    requires ChildInv(s) && PcOf(s, t) == Listing(child, at) && !(WaitsForLock(PcOf(s, t)) && s.kids.lock.Some?)
    ensures OwnStepOk(s, RunList(s, t, child, at), t)
  {
    hide Collected, Covered;
    ListStaysCovered(s.family.owed, s.kids.children, child, s.expired);
    ListStaysCovered(s.family.owed, s.family.snapshot, child, s.expired);
  }

  lemma SweepStepOk(s: State, t: Tid, force: bool, at: CancelPc)
    requires ChildInv(s) && PcOf(s, t) == Cancelling(force, at) && Sweeps(PcOf(s, t))
    requires !(WaitsForLock(PcOf(s, t)) && s.kids.lock.Some?)
    ensures OwnStepOk(s, RunCancel(s, t, force, at), t)
  {
    match at
    case SweepLock => LockedSweepOk(s, t, force, at);
    case Sweeping(_, _) => LockedSweepOk(s, t, force, at);
    case SweepClear(_) => ClearOk(s, t, force, at);
    case SweepUnlock(_) => ClearOk(s, t, force, at);
    case Recursing(_) => RecursingOk(s, t, force, at);
  }

  lemma LockedSweepOk(s: State, t: Tid, force: bool, at: CancelPc)
    requires ChildInv(s) && PcOf(s, t) == Cancelling(force, at) && (at.SweepLock? || at.Sweeping?)
    requires !(WaitsForLock(PcOf(s, t)) && s.kids.lock.Some?)
    ensures OwnStepOk(s, RunCancel(s, t, force, at), t)
  {
    hide Covered, Collected;
    match at
    case SweepLock => CollectsNothingYet(s.kids.children, s.expired);
    case Sweeping(i, found) => CollectsOneMore(s.kids.children, i, found, s.expired);
  }

  lemma ClearOk(s: State, t: Tid, force: bool, at: CancelPc)
    requires ChildInv(s) && PcOf(s, t) == Cancelling(force, at) && (at.SweepClear? || at.SweepUnlock?)
    ensures OwnStepOk(s, RunCancel(s, t, force, at), t)
  {
    hide Covered, Collected;
    if at.SweepClear? { SweptIsCovered(s.family.owed, s.kids.children, at.found, s.expired); }
  }

  lemma RecursingOk(s: State, t: Tid, force: bool, at: CancelPc)
    requires ChildInv(s) && PcOf(s, t) == Cancelling(force, at) && at.Recursing?
    ensures OwnStepOk(s, RunCancel(s, t, force, at), t)
  {
    hide Covered, Collected;
    var rest := at.rest;
    if rest != [] { assert s.family.cancelCalls + [rest[0]] + rest[1..] == s.family.cancelCalls + rest; }
    else { assert s.family.cancelCalls + rest == s.family.cancelCalls; }
  }

  lemma CompletingOk(s: State, t: Tid, error: Value, onWin: FinishPc)
    requires ChildInv(s) && !Sweeps(PcOf(s, t)) && (onWin.Assigning? || onWin.CancelHook?)
    ensures OwnStepOk(s, Completing(s, t, error, onWin), t)
  {
    hide Covered, Collected;
  }

  lemma CancelStepOk(s: State, t: Tid, force: bool, at: CancelPc)
    requires ChildInv(s) && PcOf(s, t) == Cancelling(force, at) && !Sweeps(PcOf(s, t))
    ensures OwnStepOk(s, RunCancel(s, t, force, at), t)
  {
    hide OwnStepOk, RunCancel, Completing, ChildInv;
    if at.Deciding? && !(!force && s.skip) {
      CompletingOk(s, t, OPERATION_CANCELED, CancelHook);
      DecidesToComplete(s, t, force);
    } else if at.Marking? {
      MarkOk(s, t, force);
    } else {
      SignalOk(s, t, force, at);
    }
  }

  lemma MarkOk(s: State, t: Tid, force: bool)
    requires ChildInv(s) && PcOf(s, t) == Cancelling(force, Marking)
    ensures OwnStepOk(s, RunCancel(s, t, force, Marking), t)
  {
    hide Covered, Collected, Completing, SweepStep;
  }

  lemma SignalOk(s: State, t: Tid, force: bool, at: CancelPc)
    requires ChildInv(s) && PcOf(s, t) == Cancelling(force, at) && (at.Signalling? || (at.Deciding? && !force && s.skip))
    ensures OwnStepOk(s, RunCancel(s, t, force, at), t)
  {
    hide Covered, Collected, Completing, SweepStep;
  }

  lemma FinishStepOk(s: State, t: Tid, at: FinishPc)
    requires ChildInv(s) && CompletionInv(s)
    requires PcOf(s, t) == Finishing(at) && !(WaitsForLock(PcOf(s, t)) && s.kids.lock.Some?)
    ensures OwnStepOk(s, RunFinish(s, t, at), t)
  {
    hide Covered, Collected;
  }

  lemma OthersStay(s: State, s': State, t: Tid, u: Tid)
    requires u != t && OthersUndisturbed(s, s', t) && ThreadFacts(u, PcOf(s, u), s.kids, s.done.cleaned, s.family)
    requires s.family.sweeper == Some(u) ==> SweepFacts(s.kids, s.family, s.expired, PcOf(s, u))
    ensures ThreadFacts(u, PcOf(s, u), s'.kids, s'.done.cleaned, s'.family)
    ensures s'.family.sweeper == Some(u) ==> SweepFacts(s'.kids, s'.family, s'.expired, PcOf(s, u))
  {
    hide Collected;
  }

  lemma OwnStepSuffices(s: State, s': State, t: Tid)
    requires ChildInv(s) && OwnStepOk(s, s', t)
    ensures ChildInv(s')
  {
    hide Shared, ThreadFacts, SweepFacts, OthersUndisturbed;
    forall u: Tid
      ensures ThreadFacts(u, PcOf(s', u), s'.kids, s'.done.cleaned, s'.family)
      ensures s'.family.sweeper == Some(u) ==> SweepFacts(s'.kids, s'.family, s'.expired, PcOf(s', u))
    {
      IdleFacts(u, s.kids, s.done.cleaned, s.family);
      if u != t { OthersStay(s, s', t, u); }
    }
    forall u | u in s'.threads ensures ThreadFacts(u, s'.threads[u], s'.kids, s'.done.cleaned, s'.family) {
      assert PcOf(s', u) == s'.threads[u];
    }
  }

  lemma IdleFacts(t: Tid, kids: Kids, cleaned: bool, family: Family)
    ensures ThreadFacts(t, Idle, kids, cleaned, family)
  {
  }

  lemma GoKeepsChildren(s: State, t: Tid)
    requires CompletionInv(s) && ChildInv(s)
    ensures ChildInv(Run(s, t))
  {
    hide ChildInv, CompletionInv, OwnStepOk, RunFinish, RunCancel, RunList, Completing;
    var pc := PcOf(s, t);
    if !(WaitsForLock(pc) && s.kids.lock.Some?) && !pc.Idle? {
      match pc {
        case Trying(error) => CompletingOk(s, t, error, Assigning(error));
        case Finishing(at) => FinishStepOk(s, t, at);
        case Cancelling(force, at) => if Sweeps(pc) { SweepStepOk(s, t, force, at); } else { CancelStepOk(s, t, force, at); }
        case Listing(child, at) => ListStepOk(s, t, child, at);
      }
      OwnStepSuffices(s, Run(s, t), t);
    }
  }

  lemma StepKeepsChildren(s: State, e: Event)
    requires CompletionInv(s) && ChildInv(s)
    ensures ChildInv(Step(s, e))
  {
    hide Run, CompletionInv;
    match e
    case Begin(t, request) =>
    case Go(t) => GoKeepsChildren(s, t);
    case Word(call) =>
    case ReadError =>
    case Expire(child) =>
  }

  // ---------------------------------------------------------------- whole runs

  lemma {:induction false} ExecKeepsInv(skip: bool, hasCallback: bool, es: seq<Event>)
    ensures var s := Exec(Initial(skip, hasCallback), es);
            CompletionInv(s) && ChildInv(s) && s.hasCallback == hasCallback && s.skip == skip
  {
    hide Run;
    if es != [] {
      var before := Exec(Initial(skip, hasCallback), es[..|es| - 1]);
      ExecKeepsInv(skip, hasCallback, es[..|es| - 1]);
      hide CompletionInv, ChildInv, Initial;
      StepKeepsCompletion(before, es[|es| - 1]);
      StepKeepsChildren(before, es[|es| - 1]);
      StepKeepsConfiguration(before, es[|es| - 1]);
    }
  }

  lemma StepKeepsConfiguration(s: State, e: Event)
    ensures Step(s, e).hasCallback == s.hasCallback && Step(s, e).skip == s.skip
  {
    hide FinishStep, SweepStep, ListStep, CleanStep, StartComplete;
  }

  /** All threads are out of the operation. */
  ghost predicate Quiet(s: State) {
    forall t :: t in s.threads ==> s.threads[t].Idle?
  }

  /** Single completion, in every run: at most one attempt wins, and one has won
      as soon as one was refused; the callback is called once, with the winner's
      error and not before Completed; no assertion fails. When all threads are out,
      a won operation is completed, holds the winner's error and has dropped its
      callback. */
  lemma CompletedOnce(skip: bool, hasCallback: bool, es: seq<Event>)
    ensures var s := Exec(Initial(skip, hasCallback), es);
            && s.done.wins <= 1 && !s.done.broken
            && (s.done.refused ==> s.done.wins == 1)
            && (s.done.wins == 1 <==> s.op.view.life !in {Created, Started})
            && |s.done.fired| <= (if hasCallback then s.done.wins else 0)
            && (forall f :: f in s.done.fired ==> f.life in {Completed, Ended} && s.done.winner == Some(f.error))
            && (s.op.view.life in {Completed, Ended} ==> s.done.winner == Some(s.op.error.value))
            && (Quiet(s) && s.done.wins == 1 ==>
                  && s.op.view.life in {Completed, Ended}
                  && |s.done.fired| == (if hasCallback then 1 else 0)
                  && !s.op.callback)
  {
    ExecKeepsInv(skip, hasCallback, es);
    hide Exec, Initial, ChildInv;
  }

  /** No missed child, in every run: once the first Cancel has swept, the list is
      empty for good, and an owed child that still lives is in the snapshot exactly
      if Cleanup had not emptied the list first. Every child of the snapshot has
      been cancelled, in order, when that Cancel goes on to complete. */
  lemma NoMissedChild(skip: bool, hasCallback: bool, es: seq<Event>, c: Child)
    ensures var s := Exec(Initial(skip, hasCallback), es);
            && (s.family.swept || s.done.cleaned ==> s.kids.children == [])
            && (s.family.swept && c in s.family.owed && c !in s.expired ==>
                  (c in s.family.snapshot <==> !s.family.cleanedFirst))
            && (s.family.swept ==> s.family.sweeper.Some? && s.op.view.cancelled)
            && (s.family.swept && !Sweeps(PcOf(s, s.family.sweeper.value)) ==> s.family.cancelCalls == s.family.snapshot)
            && (!s.family.swept && !s.done.cleaned && c in s.family.owed && c !in s.expired ==> c in s.kids.children)
  {
    ExecKeepsInv(skip, hasCallback, es);
    hide Exec, Initial, CompletionInv;
  }

  /** What each assertion of a completion is about, when its statement comes next: the error
      has been read or never assigned, and the operation is completing. */
  lemma AssertionsHold(skip: bool, hasCallback: bool, es: seq<Event>, t: Tid)
    ensures var s := Exec(Initial(skip, hasCallback), es);
            PcOf(s, t).Finishing? ==>
              && (PcOf(s, t).finish.Assigning? ==> MayAssign(s.op.error))
              && (PcOf(s, t).finish.Transitioning? ==> s.op.view.life == Life.Completing)
  {
    ExecKeepsInv(skip, hasCallback, es);
    hide Exec, Initial, ChildInv;
  }

  lemma StepKeepsWinner(s: State, e: Event)
    requires CompletionInv(s) && s.op.view.life in {Completed, Ended}
    ensures Step(s, e).done.winner == s.done.winner && Step(s, e).op.view.life in {Completed, Ended}
  {
    hide FinishStep, SweepStep, ListStep, CleanStep, Completing, WinnerAt, Undecided;
    if e.Go? {
      match PcOf(s, e.tid)
      case Trying(error) => StartCompleteDecides(s, e.tid, error, Assigning(error));
      case Finishing(at) => FinishKeepsDecided(s.hasCallback, at, s.op, s.done);
      case Cancelling(_, at) => if at.Deciding? { StartCompleteDecides(s, e.tid, OPERATION_CANCELED, CancelHook); }
      case _ =>
    }
  }

  /** Once completed, the operation keeps its error in every continuation. */
  lemma {:induction false} ErrorIsStable(skip: bool, hasCallback: bool, es: seq<Event>, more: seq<Event>)
    requires Exec(Initial(skip, hasCallback), es).op.view.life in {Completed, Ended}
    ensures var s, s' := Exec(Initial(skip, hasCallback), es), Exec(Initial(skip, hasCallback), es + more);
            s'.op.view.life in {Completed, Ended} && s'.op.error.value == s.op.error.value
  {
    hide Step, Initial;
    ExecKeepsInv(skip, hasCallback, es + more);
    if more == [] {
      assert es + more == es;
    } else {
      var before := es + more[..|more| - 1];
      assert (es + more)[..|es + more| - 1] == before;
      ErrorIsStable(skip, hasCallback, es, more[..|more| - 1]);
      ExecKeepsInv(skip, hasCallback, before);
      StepKeepsWinner(Exec(Initial(skip, hasCallback), before), more[|more| - 1]);
    }
  }

  // ---------------------------------------------------------------- roots

  /** A root of operations is created and never started. */
  predicate NeverStarted(es: seq<Event>) {
    forall i :: 0 <= i < |es| ==> es[i] != Word(Call.Start)
  }

  lemma StepKeepsCreated(s: State, e: Event)
    requires s.op.view.life == Created && e != Word(Call.Start) && CompletionInv(s)
    ensures Step(s, e).op.view.life == Created
  {
    hide ListStep, CleanStep, SweepStep;
  }

  lemma {:induction false} RootStaysCreated(skip: bool, hasCallback: bool, es: seq<Event>)
    requires NeverStarted(es)
    ensures Exec(Initial(skip, hasCallback), es).op.view.life == Created
  {
    if es != [] {
      var before := es[..|es| - 1];
      RootStaysCreated(skip, hasCallback, before);
      ExecKeepsInv(skip, hasCallback, before);
      hide Step, CompletionInv;
      StepKeepsCreated(Exec(Initial(skip, hasCallback), before), es[|es| - 1]);
    }
  }

  /** Cleanup never runs on a root, so its Cancel misses no child at all. */
  lemma RootMissesNoChild(skip: bool, hasCallback: bool, es: seq<Event>, c: Child)
    requires NeverStarted(es)
    ensures var s := Exec(Initial(skip, hasCallback), es);
            s.family.swept && c in s.family.owed && c !in s.expired ==> c in s.family.snapshot
    ensures var s := Exec(Initial(skip, hasCallback), es);
            s.family.swept ==> !s.family.cleanedFirst && s.kids.children == []
  {
    RootStaysCreated(skip, hasCallback, es);
    ExecKeepsInv(skip, hasCallback, es);
    NoMissedChild(skip, hasCallback, es, c);
    hide Exec, Initial;
  }

  // ---------------------------------------------------------------- cancel completes

  /** t is in a Cancel that made the mark and has not decided yet, or the decision
      no longer matters. */
  predicate WillComplete(s: State, t: Tid, force: bool) {
    var pc := PcOf(s, t);
    Stage(s.op.view.life) >= 2 ||
    (s.op.view.life == Started && pc.Cancelling? && pc.force == force && !pc.cancel.Marking? && !pc.cancel.Signalling?)
  }

  /** A step of t moves no other thread and takes the lifecycle nowhere back. */
  predicate Advances(s: State, s': State, t: Tid) {
    Stage(s.op.view.life) <= Stage(s'.op.view.life) && s'.skip == s.skip && s'.threads == s.threads[t := PcOf(s', t)]
  }

  lemma CompletingAdvances(s: State, t: Tid, error: Value, onWin: FinishPc)
    ensures Advances(s, Completing(s, t, error, onWin), t)
  {
  }

  lemma FinishAdvances(s: State, t: Tid, at: FinishPc)
    ensures Advances(s, RunFinish(s, t, at), t)
  {
    hide CleanStep;
  }

  lemma CancelAdvances(s: State, t: Tid, force: bool, at: CancelPc)
    ensures Advances(s, RunCancel(s, t, force, at), t)
  {
    hide SweepStep, Completing, Advances;
    if at.Deciding? && !(!force && s.skip) {
      CompletingAdvances(s, t, OPERATION_CANCELED, CancelHook);
      DecidesToComplete(s, t, force);
    } else {
      CancelAdvancesElsewhere(s, t, force, at);
    }
  }

  lemma DecidesToComplete(s: State, t: Tid, force: bool)
    requires force || !s.skip
    ensures RunCancel(s, t, force, Deciding) == Completing(s, t, OPERATION_CANCELED, CancelHook)
  {
  }

  lemma CancelAdvancesElsewhere(s: State, t: Tid, force: bool, at: CancelPc)
    requires !(at.Deciding? && !(!force && s.skip))
    ensures Advances(s, RunCancel(s, t, force, at), t)
  {
    hide SweepStep, Completing;
  }

  lemma ListAdvances(s: State, t: Tid, child: Child, at: ListPc)
    ensures Advances(s, RunList(s, t, child, at), t)
  {
    hide ListStep;
  }

  lemma RunAdvances(s: State, t: Tid)
    ensures Advances(s, Run(s, t), t) || Run(s, t) == s
  {
    hide Completing, RunFinish, RunCancel, RunList, Advances;
    match PcOf(s, t)
    case Idle =>
    case Trying(error) => CompletingAdvances(s, t, error, Assigning(error));
    case Finishing(at) => FinishAdvances(s, t, at);
    case Cancelling(force, at) => CancelAdvances(s, t, force, at);
    case Listing(child, at) => ListAdvances(s, t, child, at);
  }

  lemma CancelGoesOn(s: State, t: Tid, force: bool)
    requires WillComplete(s, t, force) && (force || !s.skip) && PcOf(s, t).Cancelling?
    ensures WillComplete(Run(s, t), t, force)
  {
    var pc := PcOf(s, t);
    if pc.cancel.Deciding? && pc.force == force {
      hide RunCancel, Completing;
      DecidesToComplete(s, t, force);
      CompletingDecides(s, t);
    } else {
      RunAdvances(s, t);
      hide Completing;
    }
  }

  lemma CompletingDecides(s: State, t: Tid)
    requires s.op.view.life != Created
    ensures Stage(Completing(s, t, OPERATION_CANCELED, CancelHook).op.view.life) >= 2
  {
  }

  lemma StepKeepsWillComplete(s: State, e: Event, t: Tid, force: bool)
    requires WillComplete(s, t, force) && (force || !s.skip)
    ensures WillComplete(Step(s, e), t, force)
  {
    hide Run;
    if e.Go? {
      RunAdvances(s, e.tid);
      if e.tid == t && PcOf(s, t).Cancelling? { CancelGoesOn(s, t, force); }
    }
  }

  /** A Cancel that marked a started operation leaves it completing or later when
      it returns, whatever else happens meanwhile, unless cancel is only a signal. */
  lemma {:induction false} CancelCompletes(skip: bool, hasCallback: bool, es: seq<Event>, more: seq<Event>, t: Tid, force: bool)
    requires force || !skip
    requires WillComplete(Exec(Initial(skip, hasCallback), es), t, force)
    ensures var s := Exec(Initial(skip, hasCallback), es + more);
            WillComplete(s, t, force) && (PcOf(s, t).Idle? ==> Stage(s.op.view.life) >= 2)
  {
    hide Step, Initial;
    if more == [] {
      assert es + more == es;
    } else {
      var before := es + more[..|more| - 1];
      assert (es + more)[..|es + more| - 1] == before;
      CancelCompletes(skip, hasCallback, es, more[..|more| - 1], t, force);
      ExecKeepsInv(skip, hasCallback, before);
      StepKeepsWillComplete(Exec(Initial(skip, hasCallback), before), more[|more| - 1], t, force);
    }
  }

  // ---------------------------------------------------------------- the exception is real

  /** One more statement of thread t in a run that has come to s. */
  lemma Goes(start: State, es: seq<Event>, s: State, t: Tid) returns (es': seq<Event>)
    requires Exec(start, es) == s
    ensures Exec(start, es') == Run(s, t)
  {
    hide Run;
    es' := es + [Go(t)];
    assert es'[..|es'| - 1] == es;
  }

  lemma Begins(start: State, es: seq<Event>, s: State, t: Tid, r: Request) returns (es': seq<Event>)
    requires Exec(start, es) == s && PcOf(s, t).Idle?
    ensures Exec(start, es') == At(s, t, FirstPc(r))
  {
    es' := es + [Begin(t, r)];
    assert es'[..|es'| - 1] == es;
  }

  lemma AttachGoesOn(start: State, es: seq<Event>, s: State, t: Tid, c: Child) returns (es': seq<Event>, s': State)
    requires Exec(start, es) == s && PcOf(s, t) == Listing(c, AttachLock)
    requires s.kids.lock.None? && Stage(s.op.view.life) <= 1 && !s.op.view.cancelled
    ensures Exec(start, es') == s'
    ensures s'.kids == Kids(None, s.kids.children + [c]) && s'.family == s.family.(owed := s.family.owed + {c})
    ensures s'.op == s.op && s'.done == s.done && s'.expired == s.expired && s'.threads == s.threads[t := Idle]
  {
    hide Exec, RunFinish, RunCancel, Completing, Without;
    es', s' := es, s;
    for i := 0 to 5
      invariant Exec(start, es') == s'
      invariant s'.op == s.op && s'.done == s.done && s'.expired == s.expired
      invariant s'.threads == if i == 0 then s.threads else s.threads[t := if i == 5 then Idle else Listing(c, AttachProgress(i))]
      invariant s'.kids == Kids(if i in {0, 5} then None else Some(t), if i <= 3 then s.kids.children else s.kids.children + [c])
      invariant s'.family == if i <= 3 then s.family else s.family.(owed := s.family.owed + {c})
    {
      es' := Goes(start, es', s', t);
      s' := Run(s', t);
    }
  }

  function AttachProgress(i: nat): ListPc {
    if i == 0 then AttachLock else if i == 1 then AttachCheckComplete else if i == 2 then AttachCheckCancel
    else if i == 3 then AttachPush else AttachUnlock
  }

  function FinishProgress(i: nat): FinishPc {
    if i == 0 then Assigning(SUCCESS) else if i == 1 then Transitioning else if i == 2 then Notifying
    else if i == 3 then Calling else if i == 4 then CleanLock else if i == 5 then CleanClear
    else if i == 6 then CleanUnlock else DetachSelf
  }

  lemma FinishGoesOn(start: State, es: seq<Event>, s: State, t: Tid) returns (es': seq<Event>, s': State)
    requires Exec(start, es) == s && PcOf(s, t) == Finishing(Assigning(SUCCESS))
    requires s.kids.lock.None? && s.op.view == View(Life.Completing, false, false)
    ensures Exec(start, es') == s' && s'.threads == s.threads[t := Finishing(DetachSelf)]
    ensures s'.kids == Kids(None, []) && s'.family == s.family && s'.expired == s.expired && s'.done.cleaned
    ensures s'.op.view == View(Completed, false, false)
  {
    hide Exec, RunList, RunCancel, Completing;
    es', s' := es, s;
    assert s.threads[t := Finishing(FinishProgress(0))] == s.threads;
    for i := 0 to 7
      invariant Exec(start, es') == s'
      invariant s'.threads == s.threads[t := Finishing(FinishProgress(i))]
      invariant s'.kids == Kids(if i in {5, 6} then Some(t) else None, if i <= 5 then s.kids.children else [])
      invariant s'.family == s.family && s'.expired == s.expired && (i >= 6 ==> s'.done.cleaned)
      invariant s'.op.view == View(if i <= 1 then Life.Completing else Completed, false, false)
    {
      es' := Goes(start, es', s', t);
      s' := Run(s', t);
    }
  }

  function SweepProgress(i: nat): CancelPc {
    if i == 0 then Marking else if i == 1 then SweepLock else if i == 2 then Sweeping(0, [])
    else if i == 3 then SweepClear([]) else SweepUnlock([])
  }

  lemma SweepGoesOn(start: State, es: seq<Event>, s: State, t: Tid) returns (es': seq<Event>, s': State)
    requires Exec(start, es) == s && PcOf(s, t) == Cancelling(false, Marking)
    requires s.kids == Kids(None, []) && !s.op.view.cancelled && s.done.cleaned
    ensures Exec(start, es') == s' && s'.expired == s.expired
    ensures s'.family == s.family.(sweeper := Some(t), swept := true, snapshot := [], cleanedFirst := true)
  {
    hide Exec, RunList, RunFinish, Completing;
    es', s' := es, s;
    for i := 0 to 4
      invariant Exec(start, es') == s' && s'.expired == s.expired && s'.done.cleaned
      invariant PcOf(s', t) == Cancelling(false, SweepProgress(i))
      invariant s'.kids == Kids(if i <= 1 then None else Some(t), []) && s'.op.view.cancelled == (i > 0)
      invariant s'.family == if i == 0 then s.family
                             else if i <= 3 then s.family.(sweeper := Some(t))
                             else s.family.(sweeper := Some(t), swept := true, snapshot := [], cleanedFirst := true)
    {
      es' := Goes(start, es', s', t);
      s' := Run(s', t);
    }
  }

  /** The other case of NoMissedChild happens: a child is attached, the operation
      completes and cleans up, and only then is cancelled. The child lives on,
      attached, and is not cancelled. */
  lemma CleanupMayOvertakeSweep() returns (es: seq<Event>)
    ensures var s := Exec(Initial(false, true), es);
            && s.family.swept && s.family.cleanedFirst
            && 7 in s.family.owed && 7 !in s.expired && 7 !in s.family.snapshot
  {
    var start := Initial(false, true);
    es := [Word(Start)];
    assert es[..0] == [] && Exec(start, es[..0]) == start;
    var s := Exec(start, es);
    hide Exec, Run;
    es := Begins(start, es, s, 1, Attach(7));
    es, s := AttachGoesOn(start, es, At(s, 1, Listing(7, AttachLock)), 1, 7);
    es := CompletesThenCancels(start, es, s);
  }

  lemma CompletesThenCancels(start: State, before: seq<Event>, s0: State) returns (es: seq<Event>)
    requires Exec(start, before) == s0 && PcOf(s0, 2).Idle? && PcOf(s0, 3).Idle?
    requires s0.op.view == View(Started, false, false) && s0.kids.lock.None?
    ensures var s := Exec(start, es);
            && s.expired == s0.expired
            && s.family == s0.family.(sweeper := Some(3), swept := true, snapshot := [], cleanedFirst := true)
  {
    hide Exec, Run;
    es := Begins(start, before, s0, 2, TryComplete(SUCCESS));
    var s := At(s0, 2, Trying(SUCCESS));
    es := Goes(start, es, s, 2);
    s := WinsAlone(s, 2, SUCCESS);
    es, s := FinishGoesOn(start, es, s, 2);
    es := Begins(start, es, s, 3, Cancel(false));
    es, s := SweepGoesOn(start, es, At(s, 3, Cancelling(false, Marking)), 3);
  }

  lemma WinsAlone(s: State, t: Tid, error: Value) returns (s': State)
    requires PcOf(s, t) == Trying(error) && s.op.view.life == Started
    ensures s' == Run(s, t) && s'.threads == s.threads[t := Finishing(Assigning(error))]
    ensures s'.op == s.op.(view := s.op.view.(life := Life.Completing))
    ensures s'.kids == s.kids && s'.family == s.family && s'.expired == s.expired
  {
    s' := Run(s, t);
  }
}
