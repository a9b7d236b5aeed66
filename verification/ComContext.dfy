/** ComAsyncOperationContext: the handshake between Start, which publishes the
    proxy root that children hang from, and Cancel, which must reach that root; and
    the completion, the callback and End. Any number of threads, statement by
    statement; calls on the lifecycle word are atomic. */
module ComContext {
  import opened Threads
  import opened LifecycleWord
  import opened ErrorCodes

  datatype Request = Start | Cancel | TryComplete(result: Value) | End

  datatype Pc =
    | Idle
    | Starting(start: StartPc)
    | Cancelling(cancel: CancelPc)
    | Trying(result: Value)
    | Finishing(finish: FinishPc)
    | EndCall

  datatype StartPc =
    | Transition | OnStart | StartLock | CheckCompleting | CheckCancelled | Store(takes: bool)
    | StartUnlock(takes: bool) | CancelRoot

  datatype CancelPc = Mark | CancelLock | ReadChild | CancelUnlock(found: bool) | CancelChild | Decide

  datatype FinishPc = SetResult(result: Value) | Publish | Invoke | DropCallback | CleanLock | ResetChild | CleanUnlock

  /** The proxy root: strong while Start holds it, and until its last child lets go. */
  datatype Context = Context(view: View, result: Value, callback: bool, lock: Option<Tid>, child: bool)

  datatype Done = Done(wins: nat, winner: Option<Value>, owner: Option<Tid>, invoked: nat, invokedAt: Life,
                       ended: nat, endResult: Value, broken: bool)

  /** `startTakes` and `cancelTakes` tell which critical section took on the
      cancellation of the root; the others what the cancel section found. */
  datatype Handshake = Handshake(starter: Option<Tid>, startRan: bool, startTakes: bool,
                                 canceller: Option<Tid>, cancelRan: bool, cancelTakes: bool,
                                 cleaned: bool, cleanedFirst: bool, expiredFirst: bool,
                                 byStart: nat, byCancel: nat)

  datatype State = State(skip: bool, hasCallback: bool, ctx: Context, expired: bool, threads: map<Tid, Pc>,
                         done: Done, hand: Handshake)

  datatype Event = Begin(tid: Tid, request: Request) | Go(tid: Tid) | Look | Expire

  const UNDONE := Done(0, None, None, 0, Life.Created, 0, SUCCESS, false)
  const UNSHAKEN := Handshake(None, false, false, None, false, false, false, false, false, 0, 0)

  function Initial(skip: bool, hasCallback: bool): State {
    State(skip, hasCallback, Context(FRESH, SUCCESS, hasCallback, None, false), false, map[], UNDONE, UNSHAKEN)
  }

  function PcOf(s: State, t: Tid): Pc {
    if t in s.threads then s.threads[t] else Idle
  }

  function At(s: State, t: Tid, pc: Pc): State {
    s.(threads := s.threads[t := pc])
  }

  /** TryStartComplete. */
  function Completing(s: State, t: Tid, result: Value): State {
    var o := Atomic(BeginComplete, s.ctx.view);
    if o.answer == Swapped(true) then
      At(s, t, Finishing(SetResult(result))).(ctx := s.ctx.(view := o.view),
        done := s.done.(wins := s.done.wins + 1, winner := Some(result), owner := Some(t)))
    else At(s, t, Idle)
  }

  function RunStart(s: State, t: Tid, at: StartPc): State {
    match at
    case Transition =>
      var o := Atomic(Call.Start, s.ctx.view);
      At(s, t, Starting(OnStart)).(ctx := s.ctx.(view := o.view), done := s.done.(broken := s.done.broken || o.answer != Swapped(true)))
    case OnStart => At(s, t, Starting(StartLock))
    case StartLock => At(s, t, Starting(CheckCompleting)).(ctx := s.ctx.(lock := Some(t)))
    case CheckCompleting => At(s, t, Starting(if Stage(s.ctx.view.life) >= 2 then Store(true) else CheckCancelled))
    case CheckCancelled => At(s, t, Starting(Store(s.ctx.view.cancelled)))
    // a root taken for cancellation has been moved from, so the weak pointer becomes empty
    case Store(takes) =>
      At(s, t, Starting(StartUnlock(takes))).(ctx := s.ctx.(child := !takes), hand := s.hand.(startRan := true, startTakes := takes))
    case StartUnlock(takes) => At(s, t, if takes then Starting(CancelRoot) else Idle).(ctx := s.ctx.(lock := None))
    case CancelRoot => At(s, t, Idle).(hand := s.hand.(byStart := s.hand.byStart + 1))
  }

  function RunCancel(s: State, t: Tid, at: CancelPc): State {
    match at
    case Mark =>
      var o := Atomic(RequestCancel, s.ctx.view);
      if o.answer == Swapped(true) then
        At(s, t, Cancelling(CancelLock)).(ctx := s.ctx.(view := o.view), hand := s.hand.(canceller := Some(t)))
      else At(s, t, Idle)
    case CancelLock => At(s, t, Cancelling(ReadChild)).(ctx := s.ctx.(lock := Some(t)))
    case ReadChild =>
      var found := s.ctx.child && !s.expired;
      At(s, t, Cancelling(CancelUnlock(found))).(
        hand := s.hand.(cancelRan := true, cancelTakes := found, cleanedFirst := s.hand.cleaned, expiredFirst := s.expired))
    case CancelUnlock(found) =>
      At(s, t, Cancelling(if found then CancelChild else Decide)).(ctx := s.ctx.(lock := None))
    case CancelChild => At(s, t, Cancelling(Decide)).(hand := s.hand.(byCancel := s.hand.byCancel + 1))
    case Decide => if s.skip then At(s, t, Idle) else Completing(s, t, OPERATION_CANCELED)
  }

  function RunFinish(s: State, t: Tid, at: FinishPc): State {
    match at
    case SetResult(result) => At(s, t, Finishing(Publish)).(ctx := s.ctx.(result := result))
    case Publish =>
      var o := Atomic(Complete, s.ctx.view);
      At(s, t, Finishing(Invoke)).(ctx := s.ctx.(view := o.view), done := s.done.(broken := s.done.broken || o.answer != Swapped(true)))
    case Invoke =>
      At(s, t, Finishing(DropCallback)).(
        done := if s.ctx.callback then s.done.(invoked := s.done.invoked + 1, invokedAt := s.ctx.view.life) else s.done)
    case DropCallback => At(s, t, Finishing(CleanLock)).(ctx := s.ctx.(callback := false))
    case CleanLock => At(s, t, Finishing(ResetChild)).(ctx := s.ctx.(lock := Some(t)))
    case ResetChild => At(s, t, Finishing(CleanUnlock)).(ctx := s.ctx.(child := false), hand := s.hand.(cleaned := true))
    case CleanUnlock => At(s, t, Idle).(ctx := s.ctx.(lock := None))
  }

  /** End hands out the result to the call that makes the transition. */
  function RunEnd(s: State, t: Tid): State {
    var o := Atomic(Call.End, s.ctx.view);
    if o.answer == Swapped(true) then
      At(s, t, Idle).(ctx := s.ctx.(view := o.view), done := s.done.(ended := s.done.ended + 1, endResult := s.ctx.result))
    else At(s, t, Idle)
  }

  predicate WaitsForLock(pc: Pc) {
    match pc
    case Starting(at) => at.StartLock?
    case Cancelling(at) => at.CancelLock?
    case Finishing(at) => at.CleanLock?
    case _ => false
  }

  function Run(s: State, t: Tid): State {
    var pc := PcOf(s, t);
    if WaitsForLock(pc) && s.ctx.lock.Some? then s
    else
      match pc
      case Idle => s
      case Starting(at) => RunStart(s, t, at)
      case Cancelling(at) => RunCancel(s, t, at)
      case Trying(result) => Completing(s, t, result)
      case Finishing(at) => RunFinish(s, t, at)
      case EndCall => RunEnd(s, t)
  }

  /** Start is called once. The root cannot expire while Start still holds it. */
  function Step(s: State, e: Event): State {
    match e
    case Begin(t, request) =>
      if !PcOf(s, t).Idle? then s
      else
        match request {
          case Start =>
            if s.hand.starter.None? then At(s, t, Starting(Transition)).(hand := s.hand.(starter := Some(t))) else s
          case Cancel => At(s, t, Cancelling(Mark))
          case TryComplete(result) => At(s, t, Trying(result))
          case End => At(s, t, EndCall)
        }
    case Go(t) => Run(s, t)
    case Look => if s.ctx.view.life != Life.Created then s.(ctx := s.ctx.(view := Atomic(Observe, s.ctx.view).view)) else s
    case Expire => if s.hand.startRan then s.(expired := true) else s
  }

  function Exec(s: State, es: seq<Event>): State {
    if es == [] then s else Step(Exec(s, es[..|es| - 1]), es[|es| - 1])
  }

  // ---------------------------------------------------------------- the invariant

  predicate HoldsLock(pc: Pc) {
    match pc
    case Starting(at) => at.CheckCompleting? || at.CheckCancelled? || at.Store? || at.StartUnlock?
    case Cancelling(at) => at.ReadChild? || at.CancelUnlock?
    case Finishing(at) => at.ResetChild? || at.CleanUnlock?
    case _ => false
  }

  /** Before the critical section of Cancel has read the child. */
  predicate BeforeRead(pc: Pc) {
    pc.Cancelling? && (pc.cancel.CancelLock? || pc.cancel.ReadChild?)
  }

  predicate Marked(pc: Pc) {
    pc.Cancelling? && !pc.cancel.Mark?
  }

  predicate ThreadFacts(t: Tid, pc: Pc, lock: Option<Tid>, owner: Option<Tid>, h: Handshake) {
    && (HoldsLock(pc) ==> lock == Some(t))
    && (pc.Starting? ==> h.starter == Some(t))
    && (Marked(pc) ==> h.canceller == Some(t))
    && (pc.Finishing? ==> owner == Some(t))
  }

  /** How far Start has come; any other pc means it has returned. */
  predicate StartFacts(pc: Pc, created: bool, h: Handshake) {
    if !pc.Starting? then h.startRan && h.byStart == (if h.startTakes then 1 else 0) && !created
    else
      && (pc.start.Transition? <==> created)
      && h.byStart == 0
      && match pc.start
         case Store(takes) => !h.startRan && (takes || (!h.cancelRan && !h.cleaned))
         case StartUnlock(takes) => h.startRan && h.startTakes == takes
         case CancelRoot => h.startRan && h.startTakes
         case CheckCancelled => !h.startRan && !h.cleaned
         case _ => !h.startRan
  }

  /** How far the Cancel that made the mark has come. */
  predicate CancelFacts(pc: Pc, h: Handshake) {
    if BeforeRead(pc) then !h.cancelRan && h.byCancel == 0
    else
      && h.cancelRan
      && (if pc.Cancelling? && pc.cancel.CancelUnlock? then pc.cancel.found == h.cancelTakes && h.byCancel == 0
          else if pc.Cancelling? && pc.cancel.CancelChild? then h.cancelTakes && h.byCancel == 0
          else h.byCancel == if h.cancelTakes then 1 else 0)
  }

  predicate Shared(v: View, child: bool, expired: bool, h: Handshake) {
    && (h.canceller.Some? <==> v.cancelled)
    && (h.canceller.None? ==> !h.cancelRan && h.byCancel == 0)
    && (h.starter.None? ==> !h.startRan && h.byStart == 0 && v.life == Life.Created)
    && (h.cleaned ==> Stage(v.life) >= 3)
    && (expired ==> h.startRan)
    // the weak pointer is set by Start's section and emptied by Cleanup's only
    && (child <==> h.startRan && !h.startTakes && !h.cleaned)
    && (h.cleanedFirst ==> h.cleaned)
    && (h.cancelRan && h.startRan ==>
          && !(h.startTakes && h.cancelTakes)
          && (!h.startTakes && !h.cancelTakes ==> h.cleanedFirst || h.expiredFirst))
    && (!h.cancelRan || !h.startRan ==> !h.cancelTakes)
    && (h.cancelTakes ==> !h.cleanedFirst && !h.expiredFirst)
  }

  /** How far the winner has come; any other pc means it has finished. */
  datatype Phase = Claimed | Stored | Published | Called

  function PhaseOf(pc: Pc): Phase {
    if !pc.Finishing? then Called
    else if pc.finish.SetResult? then Claimed
    else if pc.finish.Publish? then Stored
    else if pc.finish.Invoke? then Published
    else Called
  }

  /** Completion, as in every operation: one winner, one callback, one End. */
  predicate CompletionFacts(phase: Phase, hasCallback: bool, life: Life, result: Value, callback: bool, d: Done) {
    && d.wins == 1 && d.winner.Some? && !d.broken
    && (if phase.Claimed? || phase.Stored? then life == Life.Completing else Stage(life) >= 3)
    && (!phase.Claimed? ==> d.winner == Some(result))
    && (if phase.Called? then d.invoked == (if hasCallback then 1 else 0) && (hasCallback ==> Stage(d.invokedAt) >= 3)
        else d.invoked == 0 && callback == hasCallback)
    && d.ended == (if life == Ended then 1 else 0)
    && (d.ended == 1 ==> d.winner == Some(d.endResult))
  }

  predicate CarriesWinner(pc: Pc, d: Done) {
    pc.Finishing? && pc.finish.SetResult? ==> d.winner == Some(pc.finish.result)
  }

  ghost predicate DoneInv(s: State) {
    && (forall t :: t in s.threads && s.threads[t].Finishing? ==> s.done.owner == Some(t))
    && (if s.done.owner.None? then Stage(s.ctx.view.life) <= 1 && s.done == UNDONE && s.ctx.callback == s.hasCallback
        else
          var pc := PcOf(s, s.done.owner.value);
          CarriesWinner(pc, s.done) &&
          CompletionFacts(PhaseOf(pc), s.hasCallback, s.ctx.view.life, s.ctx.result, s.ctx.callback, s.done))
  }

  function IsCreated(s: State): bool {
    s.ctx.view.life == Life.Created
  }

  ghost predicate HandInv(s: State) {
    && Shared(s.ctx.view, s.ctx.child, s.expired, s.hand)
    && (forall t :: t in s.threads ==> ThreadFacts(t, s.threads[t], s.ctx.lock, s.done.owner, s.hand))
    && (s.hand.starter.Some? ==> StartFacts(PcOf(s, s.hand.starter.value), IsCreated(s), s.hand))
    && (s.hand.canceller.Some? ==> CancelFacts(PcOf(s, s.hand.canceller.value), s.hand))
  }

  // ---------------------------------------------------------------- completion

  lemma OthersKeepDone(s: State, s': State, t: Tid)
    requires DoneInv(s) && !PcOf(s, t).Finishing?
    requires s'.threads == s.threads[t := PcOf(s', t)] && !PcOf(s', t).Finishing? && s'.hasCallback == s.hasCallback
    requires s'.ctx.view.life == s.ctx.view.life || (s.ctx.view.life == Life.Created && s'.ctx.view.life == Started)
    requires s'.ctx.result == s.ctx.result && s'.ctx.callback == s.ctx.callback && s'.done == s.done
    ensures DoneInv(s')
  {
  }

  lemma CompletingKeepsDone(s: State, t: Tid, result: Value)
    requires DoneInv(s) && !PcOf(s, t).Finishing?
    ensures DoneInv(Completing(s, t, result))
  {
    if s.ctx.view.life == Started {
      assert s.done == UNDONE;
    } else {
      OthersKeepDone(s, Completing(s, t, result), t);
    }
  }

  lemma FinishKeepsDone(s: State, t: Tid, at: FinishPc)
    requires DoneInv(s) && PcOf(s, t) == Finishing(at)
    ensures DoneInv(RunFinish(s, t, at))
  {
  }

  lemma EndKeepsDone(s: State, t: Tid)
    requires DoneInv(s) && PcOf(s, t).EndCall?
    ensures DoneInv(RunEnd(s, t))
  {
    if s.ctx.view.life != Completed { OthersKeepDone(s, RunEnd(s, t), t); }
  }

  // ---------------------------------------------------------------- handshake

  /** What the other threads may rely on when t takes a step. */
  predicate OthersUndisturbed(s: State, s': State, t: Tid) {
    var h, h' := s.hand, s'.hand;
    && (s'.ctx.lock == s.ctx.lock || s.ctx.lock.None? || s.ctx.lock == Some(t))
    && ((h'.cancelRan == h.cancelRan && h'.cleaned == h.cleaned) || s.ctx.lock == Some(t))
    && (h'.starter == h.starter || (h.starter.None? && h'.starter == Some(t)))
    && (h'.canceller == h.canceller || (h.canceller.None? && h'.canceller == Some(t)))
    && (s'.done.owner == s.done.owner || s.done.owner.None?)
    && (h'.starter == Some(t) ||
        (h'.startRan == h.startRan && h'.startTakes == h.startTakes && h'.byStart == h.byStart && IsCreated(s) == IsCreated(s')))
    && (h'.canceller == Some(t) ||
        (h'.cancelRan == h.cancelRan && h'.cancelTakes == h.cancelTakes && h'.byCancel == h.byCancel))
  }

  predicate OwnStepOk(s: State, s': State, t: Tid) {
    && Shared(s'.ctx.view, s'.ctx.child, s'.expired, s'.hand)
    && ThreadFacts(t, PcOf(s', t), s'.ctx.lock, s'.done.owner, s'.hand)
    && (s'.hand.starter == Some(t) ==> StartFacts(PcOf(s', t), IsCreated(s'), s'.hand))
    && (s'.hand.canceller == Some(t) ==> CancelFacts(PcOf(s', t), s'.hand))
    && OthersUndisturbed(s, s', t) && s'.threads == s.threads[t := PcOf(s', t)]
  }

  lemma OthersStay(s: State, s': State, t: Tid, u: Tid)
    requires u != t && OthersUndisturbed(s, s', t) && ThreadFacts(u, PcOf(s, u), s.ctx.lock, s.done.owner, s.hand)
    requires s.hand.starter == Some(u) ==> StartFacts(PcOf(s, u), IsCreated(s), s.hand)
    requires s.hand.canceller == Some(u) ==> CancelFacts(PcOf(s, u), s.hand)
    ensures ThreadFacts(u, PcOf(s, u), s'.ctx.lock, s'.done.owner, s'.hand)
    ensures s'.hand.starter == Some(u) ==> StartFacts(PcOf(s, u), IsCreated(s'), s'.hand)
    ensures s'.hand.canceller == Some(u) ==> CancelFacts(PcOf(s, u), s'.hand)
  {
  }

  lemma IdleFacts(t: Tid, lock: Option<Tid>, owner: Option<Tid>, h: Handshake)
    ensures ThreadFacts(t, Idle, lock, owner, h)
  {
  }

  lemma OwnStepSuffices(s: State, s': State, t: Tid)
    requires HandInv(s) && OwnStepOk(s, s', t)
    ensures HandInv(s')
  {
    hide Shared, ThreadFacts, StartFacts, CancelFacts;
    forall u: Tid
      ensures ThreadFacts(u, PcOf(s', u), s'.ctx.lock, s'.done.owner, s'.hand)
      ensures s'.hand.starter == Some(u) ==> StartFacts(PcOf(s', u), IsCreated(s'), s'.hand)
      ensures s'.hand.canceller == Some(u) ==> CancelFacts(PcOf(s', u), s'.hand)
    {
      IdleFacts(u, s.ctx.lock, s.done.owner, s.hand);
      if u != t { OthersStay(s, s', t, u); }
    }
    forall u | u in s'.threads ensures ThreadFacts(u, s'.threads[u], s'.ctx.lock, s'.done.owner, s'.hand) {
      assert PcOf(s', u) == s'.threads[u];
    }
  }

  /** Start may run on the thread whose Cancel has returned. */
  lemma StarterOk(s: State, s': State, t: Tid)
    requires HandInv(s) && PcOf(s, t).Starting? && !PcOf(s', t).Cancelling?
    requires OthersUndisturbed(s, s', t) && s'.threads == s.threads[t := PcOf(s', t)]
    requires Shared(s'.ctx.view, s'.ctx.child, s'.expired, s'.hand)
    requires ThreadFacts(t, PcOf(s', t), s'.ctx.lock, s'.done.owner, s'.hand)
    requires s'.hand.starter == Some(t) ==> StartFacts(PcOf(s', t), IsCreated(s'), s'.hand)
    requires s'.hand.canceller == s.hand.canceller && s'.hand.cancelRan == s.hand.cancelRan
    requires s'.hand.cancelTakes == s.hand.cancelTakes && s'.hand.byCancel == s.hand.byCancel
    ensures OwnStepOk(s, s', t)
  {
    hide Shared, ThreadFacts, StartFacts, OthersUndisturbed;
  }

  lemma StoreOk(s: State, t: Tid, takes: bool)
    requires HandInv(s) && PcOf(s, t) == Starting(Store(takes))
    ensures OwnStepOk(s, RunStart(s, t, Store(takes)), t)
  {
    assert ThreadFacts(t, s.threads[t], s.ctx.lock, s.done.owner, s.hand);
    hide CancelFacts;
    StarterOk(s, RunStart(s, t, Store(takes)), t);
  }

  lemma StartStepOk(s: State, t: Tid, at: StartPc)
    requires HandInv(s) && PcOf(s, t) == Starting(at) && !(WaitsForLock(PcOf(s, t)) && s.ctx.lock.Some?)
    ensures OwnStepOk(s, RunStart(s, t, at), t)
    ensures at.Transition? ==> s.ctx.view.life == Life.Created
  {
    match at
    case Store(takes) => StoreOk(s, t, takes);
    case Transition => StartEntersOk(s, t, at);
    case OnStart => StartEntersOk(s, t, at);
    case StartLock => StartEntersOk(s, t, at);
    case _ => StartWorksOk(s, t, at);
  }

  lemma StartEntersOk(s: State, t: Tid, at: StartPc)
    requires HandInv(s) && PcOf(s, t) == Starting(at) && !(WaitsForLock(PcOf(s, t)) && s.ctx.lock.Some?)
    requires at.Transition? || at.OnStart? || at.StartLock?
    ensures OwnStepOk(s, RunStart(s, t, at), t)
    ensures at.Transition? ==> s.ctx.view.life == Life.Created
  {
    assert ThreadFacts(t, s.threads[t], s.ctx.lock, s.done.owner, s.hand);
    hide CancelFacts;
    StarterOk(s, RunStart(s, t, at), t);
  }

  lemma StartWorksOk(s: State, t: Tid, at: StartPc)
    requires HandInv(s) && PcOf(s, t) == Starting(at)
    requires !at.Transition? && !at.OnStart? && !at.StartLock? && !at.Store?
    ensures OwnStepOk(s, RunStart(s, t, at), t)
  {
    assert ThreadFacts(t, s.threads[t], s.ctx.lock, s.done.owner, s.hand);
    hide CancelFacts;
    StarterOk(s, RunStart(s, t, at), t);
  }

  predicate PastCancel(pc: Pc) {
    pc.Cancelling? ==> pc.cancel.Mark? || pc.cancel.Decide?
  }

  /** A thread outside of both handshakes changes nothing in them. */
  lemma BystanderOk(s: State, s': State, t: Tid)
    requires HandInv(s) && !PcOf(s, t).Starting? && !PcOf(s', t).Starting? && PastCancel(PcOf(s, t)) && PastCancel(PcOf(s', t))
    requires s'.hand == s.hand && s'.ctx.child == s.ctx.child && s'.expired == s.expired
    requires s'.ctx.view.cancelled == s.ctx.view.cancelled && Stage(s'.ctx.view.life) >= Stage(s.ctx.view.life)
    requires IsCreated(s) == IsCreated(s') && s'.threads == s.threads[t := PcOf(s', t)]
    requires s'.done.owner == s.done.owner || s.done.owner.None?
    requires s'.ctx.lock == s.ctx.lock || s.ctx.lock.None? || s.ctx.lock == Some(t)
    requires ThreadFacts(t, PcOf(s', t), s'.ctx.lock, s'.done.owner, s'.hand)
    ensures OwnStepOk(s, s', t)
  {
  }

  /** A step inside Cancel which leaves the rest to the own part of the canceller. */
  lemma CancellerOk(s: State, s': State, t: Tid)
    requires HandInv(s) && PcOf(s, t).Cancelling? && !PcOf(s', t).Starting?
    requires OthersUndisturbed(s, s', t) && s'.threads == s.threads[t := PcOf(s', t)]
    requires Shared(s'.ctx.view, s'.ctx.child, s'.expired, s'.hand)
    requires ThreadFacts(t, PcOf(s', t), s'.ctx.lock, s'.done.owner, s'.hand)
    requires s'.hand.canceller == Some(t) ==> CancelFacts(PcOf(s', t), s'.hand)
    requires s'.hand.starter == s.hand.starter && s'.hand.startRan == s.hand.startRan
    requires s'.hand.startTakes == s.hand.startTakes && s'.hand.byStart == s.hand.byStart && IsCreated(s) == IsCreated(s')
    ensures OwnStepOk(s, s', t)
  {
    hide Shared, ThreadFacts, CancelFacts, OthersUndisturbed;
  }

  lemma MarkOk(s: State, t: Tid)
    requires HandInv(s) && PcOf(s, t) == Cancelling(Mark)
    ensures OwnStepOk(s, RunCancel(s, t, Mark), t)
  {
    var s' := RunCancel(s, t, Mark);
    assert ThreadFacts(t, s.threads[t], s.ctx.lock, s.done.owner, s.hand);
    if s.ctx.view.cancelled {
      hide HandInv;
      BystanderOk(s, s', t);
    } else {
      hide StartFacts;
      CancellerOk(s, s', t);
    }
  }

  lemma ReadChildOk(s: State, t: Tid)
    requires HandInv(s) && PcOf(s, t) == Cancelling(ReadChild)
    ensures OwnStepOk(s, RunCancel(s, t, ReadChild), t)
  {
    assert ThreadFacts(t, s.threads[t], s.ctx.lock, s.done.owner, s.hand);
    hide StartFacts;
    CancellerOk(s, RunCancel(s, t, ReadChild), t);
  }

  lemma CancelStepOk(s: State, t: Tid, at: CancelPc)
    requires HandInv(s) && PcOf(s, t) == Cancelling(at) && !(WaitsForLock(PcOf(s, t)) && s.ctx.lock.Some?)
    requires !(at.Decide? && !s.skip)
    ensures OwnStepOk(s, RunCancel(s, t, at), t)
  {
    assert ThreadFacts(t, s.threads[t], s.ctx.lock, s.done.owner, s.hand);
    match at
    case Mark => MarkOk(s, t);
    case ReadChild => ReadChildOk(s, t);
    case Decide =>
      hide HandInv;
      BystanderOk(s, RunCancel(s, t, at), t);
    case _ =>
      hide StartFacts;
      CancellerOk(s, RunCancel(s, t, at), t);
  }

  lemma CompletingOk(s: State, t: Tid, result: Value)
    requires HandInv(s) && DoneInv(s) && (PcOf(s, t) == Trying(result) || PcOf(s, t) == Cancelling(Decide))
    ensures OwnStepOk(s, Completing(s, t, result), t)
  {
    assert s.ctx.view.life == Started ==> s.done.owner.None?;
    hide HandInv, DoneInv;
    BystanderOk(s, Completing(s, t, result), t);
  }

  lemma FinishStepOk(s: State, t: Tid, at: FinishPc)
    requires HandInv(s) && DoneInv(s) && PcOf(s, t) == Finishing(at) && !(WaitsForLock(PcOf(s, t)) && s.ctx.lock.Some?)
    ensures OwnStepOk(s, RunFinish(s, t, at), t)
  {
    match at
    case ResetChild => ResetOk(s, t);
    case CleanLock => FinishLocksOk(s, t, at);
    case CleanUnlock => FinishLocksOk(s, t, at);
    case _ => FinishWorksOk(s, t, at);
  }

  lemma FinishLocksOk(s: State, t: Tid, at: FinishPc)
    requires HandInv(s) && DoneInv(s) && PcOf(s, t) == Finishing(at) && !(WaitsForLock(PcOf(s, t)) && s.ctx.lock.Some?)
    requires at.CleanLock? || at.CleanUnlock?
    ensures OwnStepOk(s, RunFinish(s, t, at), t)
  {
    assert ThreadFacts(t, s.threads[t], s.ctx.lock, s.done.owner, s.hand);
    hide HandInv, DoneInv, Shared, StartFacts, CancelFacts, OwnStepOk;
    BystanderOk(s, RunFinish(s, t, at), t);
  }

  lemma FinishWorksOk(s: State, t: Tid, at: FinishPc)
    requires HandInv(s) && DoneInv(s) && PcOf(s, t) == Finishing(at) && !at.CleanLock? && !at.CleanUnlock? && !at.ResetChild?
    ensures OwnStepOk(s, RunFinish(s, t, at), t)
  {
    assert ThreadFacts(t, s.threads[t], s.ctx.lock, s.done.owner, s.hand);
    hide HandInv, DoneInv, Shared, StartFacts, CancelFacts, OwnStepOk;
    BystanderOk(s, RunFinish(s, t, at), t);
  }

  lemma ResetOk(s: State, t: Tid)
    requires HandInv(s) && DoneInv(s) && PcOf(s, t) == Finishing(ResetChild)
    ensures OwnStepOk(s, RunFinish(s, t, ResetChild), t)
  {
    assert ThreadFacts(t, s.threads[t], s.ctx.lock, s.done.owner, s.hand);
  }

  lemma EndStepOk(s: State, t: Tid)
    requires HandInv(s) && PcOf(s, t).EndCall?
    ensures OwnStepOk(s, RunEnd(s, t), t)
  {
    hide HandInv;
    BystanderOk(s, RunEnd(s, t), t);
  }

  // ---------------------------------------------------------------- steps and runs

  lemma GoKeepsInv(s: State, t: Tid)
    requires HandInv(s) && DoneInv(s)
    ensures HandInv(Run(s, t)) && DoneInv(Run(s, t))
  {
    hide HandInv, DoneInv, OwnStepOk, RunStart, RunCancel, RunFinish, RunEnd, Completing;
    var pc := PcOf(s, t);
    if !(WaitsForLock(pc) && s.ctx.lock.Some?) && !pc.Idle? {
      match pc {
        case Starting(at) =>
          StartStepOk(s, t, at);
          StartLeavesDone(s, t, at);
        case Cancelling(at) =>
          if at.Decide? && !s.skip {
            DecideCompletes(s, t);
            CompletingOk(s, t, OPERATION_CANCELED);
            CompletingKeepsDone(s, t, OPERATION_CANCELED);
          } else {
            CancelStepOk(s, t, at);
            CancelLeavesDone(s, t, at);
          }
        case Trying(result) =>
          CompletingOk(s, t, result);
          CompletingKeepsDone(s, t, result);
        case Finishing(at) =>
          FinishStepOk(s, t, at);
          FinishKeepsDone(s, t, at);
        case EndCall =>
          EndStepOk(s, t);
          EndKeepsDone(s, t);
      }
      OwnStepSuffices(s, Run(s, t), t);
    }
  }

  lemma StartLeavesDone(s: State, t: Tid, at: StartPc)
    requires DoneInv(s) && PcOf(s, t) == Starting(at) && (at.Transition? ==> s.ctx.view.life == Life.Created)
    ensures DoneInv(RunStart(s, t, at))
  {
    hide DoneInv;
    OthersKeepDone(s, RunStart(s, t, at), t);
  }

  lemma CancelLeavesDone(s: State, t: Tid, at: CancelPc)
    requires DoneInv(s) && PcOf(s, t) == Cancelling(at) && !(at.Decide? && !s.skip)
    ensures DoneInv(RunCancel(s, t, at))
  {
    hide DoneInv, Completing;
    OthersKeepDone(s, RunCancel(s, t, at), t);
  }

  lemma DecideCompletes(s: State, t: Tid)
    requires !s.skip
    ensures RunCancel(s, t, Decide) == Completing(s, t, OPERATION_CANCELED)
  {
  }

  lemma BeginKeepsInv(s: State, t: Tid, request: Request)
    requires HandInv(s) && DoneInv(s)
    ensures HandInv(Step(s, Begin(t, request))) && DoneInv(Step(s, Begin(t, request)))
  {
    hide HandInv, DoneInv, OwnStepOk;
    var s' := Step(s, Begin(t, request));
    if s' != s {
      BeginOk(s, t, request);
      OthersKeepDone(s, s', t);
      OwnStepSuffices(s, s', t);
    }
  }

  lemma BeginOk(s: State, t: Tid, request: Request)
    requires HandInv(s) && PcOf(s, t).Idle? && Step(s, Begin(t, request)) != s
    ensures OwnStepOk(s, Step(s, Begin(t, request)), t)
  {
  }

  lemma LookKeepsInv(s: State)
    requires HandInv(s) && DoneInv(s)
    ensures HandInv(Step(s, Look)) && DoneInv(Step(s, Look))
  {
    hide Run, StartFacts, CancelFacts, ThreadFacts;
  }

  lemma ExpireKeepsInv(s: State)
    requires HandInv(s) && DoneInv(s)
    ensures HandInv(Step(s, Expire)) && DoneInv(Step(s, Expire))
  {
    hide Run, StartFacts, CancelFacts, ThreadFacts;
  }

  lemma StepKeepsInv(s: State, e: Event)
    requires HandInv(s) && DoneInv(s)
    ensures HandInv(Step(s, e)) && DoneInv(Step(s, e))
  {
    hide HandInv, DoneInv, Run;
    match e
    case Begin(t, request) => BeginKeepsInv(s, t, request);
    case Go(t) => GoKeepsInv(s, t);
    case Look => LookKeepsInv(s);
    case Expire => ExpireKeepsInv(s);
  }

  lemma {:induction false} ExecKeepsInv(skip: bool, hasCallback: bool, es: seq<Event>)
    ensures HandInv(Exec(Initial(skip, hasCallback), es)) && DoneInv(Exec(Initial(skip, hasCallback), es))
  {
    hide Step;
    if es != [] {
      ExecKeepsInv(skip, hasCallback, es[..|es| - 1]);
      StepKeepsInv(Exec(Initial(skip, hasCallback), es[..|es| - 1]), es[|es| - 1]);
    }
  }

  /** The handshake, in every run: once the critical sections of Start and of the
      first Cancel have both run, exactly one of them has taken on the root's
      cancellation, or neither, and then exactly because Cleanup or expiry had
      emptied the child before Cancel looked. The one that takes it on cancels it
      once and the other never. After Start's section and Cleanup the child is empty. */
  lemma RootCancelledByExactlyOne(skip: bool, hasCallback: bool, es: seq<Event>)
    ensures var s := Exec(Initial(skip, hasCallback), es);
            var h := s.hand;
            && (h.startRan && h.cancelRan ==>
                  && !(h.startTakes && h.cancelTakes)
                  && (h.cancelTakes <==> !h.startTakes && !h.cleanedFirst && !h.expiredFirst))
            && (h.startRan && h.cleaned ==> !s.ctx.child)
            && h.byStart + h.byCancel <= 1
            && (h.starter.Some? && !PcOf(s, h.starter.value).Starting? ==> h.startRan && h.byStart == if h.startTakes then 1 else 0)
            && (h.canceller.Some? && !Marked(PcOf(s, h.canceller.value)) ==>
                  h.cancelRan && h.byCancel == if h.cancelTakes then 1 else 0)
  {
    ExecKeepsInv(skip, hasCallback, es);
    hide Exec, Initial, DoneInv;
  }

  /** What each assertion of the transitions is about, when its statement comes next. */
  lemma AssertionsHold(skip: bool, hasCallback: bool, es: seq<Event>, t: Tid)
    ensures var s := Exec(Initial(skip, hasCallback), es);
            && (PcOf(s, t) == Starting(Transition) ==> s.ctx.view.life == Life.Created)
            && (PcOf(s, t) == Finishing(Publish) ==> s.ctx.view.life == Life.Completing)
  {
    ExecKeepsInv(skip, hasCallback, es);
    var s := Exec(Initial(skip, hasCallback), es);
    hide Exec, Initial;
    if t in s.threads { assert ThreadFacts(t, s.threads[t], s.ctx.lock, s.done.owner, s.hand); }
  }

  /** One winner, one callback, and one End that is given the winner's result. */
  lemma EndedWithWinnersResult(skip: bool, hasCallback: bool, es: seq<Event>)
    ensures var s := Exec(Initial(skip, hasCallback), es);
            var d := s.done;
            && !d.broken && d.wins <= 1 && d.invoked <= d.wins && d.ended <= d.wins
            && (d.invoked == 1 ==> d.invokedAt in {Completed, Ended})
            && (d.ended == 1 <==> s.ctx.view.life == Ended)
            && (d.ended == 1 ==> d.winner == Some(d.endResult))
            && (d.wins == 1 <==> d.owner.Some?)
            && (d.wins == 1 && !PcOf(s, d.owner.value).Finishing? ==>
                  s.ctx.view.life in {Completed, Ended} && d.invoked == (if s.hasCallback then 1 else 0))
  {
    ExecKeepsInv(skip, hasCallback, es);
    hide Exec, Initial, HandInv;
  }

  /** t is in a Cancel that made the mark and has not decided yet, or the decision
      no longer matters. */
  predicate WillComplete(s: State, t: Tid) {
    Stage(s.ctx.view.life) >= 2 || (s.ctx.view.life == Started && Marked(PcOf(s, t)))
  }

  /** A step of t moves no other thread and takes the lifecycle nowhere back. */
  predicate Advances(s: State, s': State, t: Tid) {
    Stage(s.ctx.view.life) <= Stage(s'.ctx.view.life) && s'.skip == s.skip && s'.threads == s.threads[t := PcOf(s', t)]
  }

  lemma CompletingAdvances(s: State, t: Tid, result: Value)
    ensures Advances(s, Completing(s, t, result), t)
  {
  }

  lemma StartAdvances(s: State, t: Tid, at: StartPc)
    ensures Advances(s, RunStart(s, t, at), t)
  {
  }

  lemma FinishAdvances(s: State, t: Tid, at: FinishPc)
    ensures Advances(s, RunFinish(s, t, at), t)
  {
  }

  lemma EndAdvances(s: State, t: Tid)
    ensures Advances(s, RunEnd(s, t), t)
  {
  }

  lemma CancelAdvances(s: State, t: Tid, at: CancelPc)
    requires !(at.Decide? && !s.skip)
    ensures Advances(s, RunCancel(s, t, at), t)
    ensures !at.Mark? && !at.Decide? ==> Marked(PcOf(RunCancel(s, t, at), t))
  {
    hide Completing;
  }

  lemma RunAdvances(s: State, t: Tid)
    ensures Advances(s, Run(s, t), t) || Run(s, t) == s
  {
    hide RunStart, RunCancel, RunFinish, RunEnd, Completing, Advances;
    match PcOf(s, t)
    case Idle =>
    case Starting(at) => StartAdvances(s, t, at);
    case Cancelling(at) =>
      if at.Decide? && !s.skip {
        DecideCompletes(s, t);
        CompletingAdvances(s, t, OPERATION_CANCELED);
      } else {
        CancelAdvances(s, t, at);
      }
    case Trying(result) => CompletingAdvances(s, t, result);
    case Finishing(at) => FinishAdvances(s, t, at);
    case EndCall => EndAdvances(s, t);
  }

  lemma CancelGoesOn(s: State, t: Tid)
    requires WillComplete(s, t) && !s.skip && PcOf(s, t).Cancelling?
    ensures WillComplete(Run(s, t), t)
  {
    hide RunCancel, Completing;
    var at := PcOf(s, t).cancel;
    RunAdvances(s, t);
    if at.Decide? {
      DecideCompletes(s, t);
      CompletingDecides(s, t);
    } else {
      CancelAdvances(s, t, at);
    }
  }

  lemma CompletingDecides(s: State, t: Tid)
    requires s.ctx.view.life != Life.Created
    ensures Stage(Completing(s, t, OPERATION_CANCELED).ctx.view.life) >= 2
  {
  }

  lemma {:induction false} SkipIsConstant(skip: bool, hasCallback: bool, es: seq<Event>)
    ensures Exec(Initial(skip, hasCallback), es).skip == skip
  {
    if es != [] {
      var before := Exec(Initial(skip, hasCallback), es[..|es| - 1]);
      SkipIsConstant(skip, hasCallback, es[..|es| - 1]);
      hide Run;
      if es[|es| - 1].Go? { RunAdvances(before, es[|es| - 1].tid); }
    }
  }

  lemma StepKeepsWillComplete(s: State, e: Event, t: Tid)
    requires WillComplete(s, t) && !s.skip
    ensures WillComplete(Step(s, e), t)
  {
    hide Run;
    if e.Go? {
      RunAdvances(s, e.tid);
      if e.tid == t && PcOf(s, t).Cancelling? { CancelGoesOn(s, t); }
    }
  }

  /** A Cancel that marked a started context leaves it completing or later when it
      returns; one that decides before Start finds nothing to complete. */
  lemma {:induction false} CancelCompletes(hasCallback: bool, es: seq<Event>, more: seq<Event>, t: Tid)
    requires WillComplete(Exec(Initial(false, hasCallback), es), t)
    ensures var s := Exec(Initial(false, hasCallback), es + more);
            WillComplete(s, t) && (PcOf(s, t).Idle? ==> Stage(s.ctx.view.life) >= 2)
  {
    if more == [] {
      assert es + more == es;
    } else {
      var before := es + more[..|more| - 1];
      assert (es + more)[..|es + more| - 1] == before;
      CancelCompletes(hasCallback, es, more[..|more| - 1], t);
      SkipIsConstant(false, hasCallback, before);
      hide Step, Initial;
      StepKeepsWillComplete(Exec(Initial(false, hasCallback), before), more[|more| - 1], t);
    }
  }
}
