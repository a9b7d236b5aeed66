/** ComProxyAsyncOperation: a native operation that waits for a COM operation
    begun through a ComAsyncOperationContext. The thread in OnStart and the thread
    in the COM callback both ask the context whether it completed synchronously,
    and the answer decides which of the two calls End. Both lifecycle words are
    here, so the stability of that answer is a consequence and not an assumption. */
module ComProxy {
  import opened Threads
  import opened LifecycleWord
  import opened ErrorCodes

  const INVALID_ARGUMENT: Value := -0x7FF8FFA9 // E_INVALIDARG
  const NOT_COMPLETE: Value := -1 // FABRIC_E_OPERATION_NOT_COMPLETE, a failure

  /** What Begin gives back: a failure is a negative HRESULT; a partner that fails may
      still hold on to the callback. */
  datatype Reply = Failed(error: Value, keeps: bool) | Null(keeps: bool) | Context

  /** On whose behalf the native operation is completed. `resume` says whether a
      Cancel waits further down the stack, and whether that Cancel has claimed
      the completion of the native operation. */
  datatype Role = Failing | Starter | Completer(resume: Option<bool>) | Nulling | Canceller

  datatype StartPc = Call | InBegin | Check | Store | Release

  datatype CancelPc = Mark(force: bool) | Choose(force: bool) | ReadStored(claimed: bool) | MarkContext(claimed: bool) | ClaimContext(claimed: bool)

  datatype Pc =
    | Idle
    | Starting(start: StartPc)
    | Serving(result: Value)
    | SetResult(result: Value, resume: Option<bool>)
    | Publish(resume: Option<bool>)
    | Invoke(resume: Option<bool>)
    | AskVerdict(resume: Option<bool>)
    | DropCallback(resume: Option<bool>)
    | EndCom(role: Role)
    | Try(role: Role, error: Value)
    | Finish(role: Role, error: Value)
    | CleanUp(role: Role)
    | NullDone
    | Cancelling(cancel: CancelPc)

  /** The native operation and the context pointer it stores for Cancel. */
  datatype Native = Native(view: View, error: Value, stored: bool,
                           claimer: Option<Tid>, how: Option<Role>, marker: Option<Tid>, force: bool)

  /** The context, the thread that completes it and the verdict that thread was given. */
  datatype Partner = Partner(view: View, result: Value, owner: Option<Tid>, winner: Option<Value>,
                             sync: Option<bool>, called: bool)

  /** The thread in OnStart: what Begin replied, and the verdict it was given. */
  datatype Begun = Begun(tid: Option<Tid>, reply: Option<Reply>, sync: Option<bool>, called: bool)

  /** The callback object, kept alive by OnStart (`local`) and by the partner (`remote`). */
  datatype Callback = Callback(local: bool, remote: bool, invoked: bool, destroyed: bool,
                               nuller: Option<Tid>, destroyer: Option<Tid>)

  /** `calls` counts EndComAsyncOperation, `wasted` those that came too early or too late. */
  datatype World = World(skip: bool, contextSkip: bool, native: Native, partner: Partner, begun: Begun,
                         callback: Callback, calls: nat, wasted: nat, broken: bool)

  datatype State = State(world: World, threads: map<Tid, Pc>)

  datatype Request = Start | Serve(result: Value) | Cancel(force: bool) | InvokeNull | Drop

  datatype Event = Begin(tid: Tid, request: Request) | Go(tid: Tid) | MakeContext | Answers(reply: Reply) | Look | EndNative

  datatype After = After(world: World, pc: Pc)

  function Initial(skip: bool, contextSkip: bool): State {
    State(World(skip, contextSkip,
                Native(View(Started, false, false), SUCCESS, false, None, None, None, false),
                Partner(FRESH, SUCCESS, None, None, None, false),
                Begun(None, None, None, false),
                Callback(false, false, false, false, None, None), 0, 0, false), map[])
  }

  // ---------------------------------------------------------------- steps

  /** After the part of a Cancel that runs inside another call has returned. */
  function Resumed(resume: Option<bool>): Pc {
    if resume == Some(true) then Finish(Canceller, OPERATION_CANCELED) else Idle
  }

  function ReturnPc(role: Role): Pc {
    match role
    case Failing => Starting(Release)
    case Nulling => NullDone
    case Canceller => Idle
    case _ => CleanUp(role)
  }

  function ClaimNative(w: World, t: Tid, role: Role, onWin: Pc, onLoss: Pc): After {
    var o := Atomic(BeginComplete, w.native.view);
    if o.answer == Swapped(true) then
      After(w.(native := w.native.(view := o.view, claimer := Some(t), how := Some(role))), onWin)
    else After(w, onLoss)
  }

  function ClaimContextWord(w: World, t: Tid, result: Value, resume: Option<bool>, onLoss: Pc): After {
    var o := Atomic(BeginComplete, w.partner.view);
    if o.answer == Swapped(true) then
      After(w.(partner := w.partner.(view := o.view, owner := Some(t), winner := Some(result))), SetResult(result, resume))
    else After(w, onLoss)
  }

  /** Letting the last reference go destroys the callback object, which cancels
      the native operation if it was never invoked. */
  function LetGo(w: World, t: Tid, local: bool, remote: bool, next: Pc): After {
    if local || remote then After(w.(callback := w.callback.(local := local, remote := remote)), next)
    else
      After(w.(callback := w.callback.(local := false, remote := false, destroyed := true, destroyer := Some(t))),
            if w.callback.invoked then next else Cancelling(Mark(false)))
  }

  function RunStart(w: World, t: Tid, at: StartPc): After {
    match at
    case Call => After(w.(callback := w.callback.(local := true)), Starting(InBegin))
    case InBegin => After(w, Starting(InBegin))
    case Check =>
      var o := Atomic(Observe, w.partner.view);
      var w' := w.(partner := w.partner.(view := o.view), begun := w.begun.(sync := Some(o.answer.synchronous)));
      After(w', if o.answer.synchronous then EndCom(Starter) else Starting(Store))
    case Store =>
      After(w.(native := w.native.(stored := w.native.stored || Stage(w.native.view.life) < 3)), Starting(Release))
    case Release => LetGo(w, t, false, w.callback.remote, Idle)
  }

  /** EndComAsyncOperation, which ends the context. */
  function RunEnd(w: World, role: Role): After {
    var o := Atomic(End, w.partner.view);
    var w1 := w.(calls := w.calls + 1, partner := w.partner.(view := o.view));
    var w2 := if role == Starter then w1.(begun := w1.begun.(called := true)) else w1.(partner := w1.partner.(called := true));
    if o.answer == Swapped(true) then After(w2, Try(role, FromHResult(w.partner.result)))
    else After(w2.(wasted := w.wasted + 1), Try(role, FromHResult(NOT_COMPLETE)))
  }

  function RunVerdict(w: World, resume: Option<bool>): After {
    var o := Atomic(Observe, w.partner.view);
    var w' := w.(partner := w.partner.(view := o.view, sync := Some(o.answer.synchronous)));
    After(w', if o.answer.synchronous then DropCallback(resume) else EndCom(Completer(resume)))
  }

  function RunFinish(w: World, role: Role, error: Value): After {
    var o := Atomic(Complete, w.native.view);
    After(w.(native := w.native.(view := o.view, error := error), broken := w.broken || o.answer != Swapped(true)), ReturnPc(role))
  }

  function RunPublish(w: World, resume: Option<bool>): After {
    var o := Atomic(Complete, w.partner.view);
    After(w.(partner := w.partner.(view := o.view), broken := w.broken || o.answer != Swapped(true)), Invoke(resume))
  }

  function RunCancel(w: World, t: Tid, at: CancelPc): After {
    match at
    case Mark(force) =>
      var o := Atomic(RequestCancel, w.native.view);
      if o.answer == Swapped(true) then
        After(w.(native := w.native.(view := o.view, marker := Some(t), force := force)), Cancelling(Choose(force)))
      else After(w, Idle)
    case Choose(force) =>
      if !force && w.skip then After(w, Cancelling(ReadStored(false)))
      else ClaimNative(w, t, Canceller, Cancelling(ReadStored(true)), Idle)
    case ReadStored(claimed) => After(w, if w.native.stored then Cancelling(MarkContext(claimed)) else Resumed(Some(claimed)))
    case MarkContext(claimed) =>
      var o := Atomic(RequestCancel, w.partner.view);
      After(w.(partner := w.partner.(view := o.view)),
            if o.answer == Swapped(true) && !w.contextSkip then Cancelling(ClaimContext(claimed)) else Resumed(Some(claimed)))
    case ClaimContext(claimed) => ClaimContextWord(w, t, OPERATION_CANCELED, Some(claimed), Resumed(Some(claimed)))
  }

  function Run(w: World, t: Tid, pc: Pc): After {
    match pc
    case Idle => After(w, Idle)
    case Starting(at) => RunStart(w, t, at)
    case Serving(result) => ClaimContextWord(w, t, result, None, Idle)
    case SetResult(result, resume) => After(w.(partner := w.partner.(result := result)), Publish(resume))
    case Publish(resume) => RunPublish(w, resume)
    case Invoke(resume) =>
      if !w.callback.remote then After(w, DropCallback(resume))
      else After(w.(callback := w.callback.(invoked := true), broken := w.broken || w.callback.invoked), AskVerdict(resume))
    case AskVerdict(resume) => RunVerdict(w, resume)
    case DropCallback(resume) =>
      if w.callback.remote then LetGo(w, t, w.callback.local, false, Resumed(resume)) else After(w, Resumed(resume))
    case EndCom(role) => RunEnd(w, role)
    case Try(role, error) => ClaimNative(w, t, role, Finish(role, error), ReturnPc(role))
    case Finish(role, error) => RunFinish(w, role, error)
    case CleanUp(role) =>
      After(w.(native := w.native.(stored := false)), if role.Completer? then DropCallback(role.resume) else Starting(Release))
    case NullDone => LetGo(w, t, w.callback.local, false, Idle)
    case Cancelling(at) => RunCancel(w, t, at)
  }

  /** What a thread may set out to do. OnStart runs once. A partner without a
      context may invoke the callback with a null one; any partner may let the
      callback go uninvoked as long as it has not begun to complete. */
  function Enter(w: World, t: Tid, request: Request): After {
    match request
    case Start => if w.begun.tid.None? then After(w.(begun := w.begun.(tid := Some(t))), Starting(Call)) else After(w, Idle)
    case Serve(result) => After(w, if w.partner.view.life != Life.Created then Serving(result) else Idle)
    case Cancel(force) => After(w, Cancelling(Mark(force)))
    case InvokeNull =>
      if w.callback.remote && !w.callback.invoked && w.partner.view.life == Life.Created then
        After(w.(callback := w.callback.(invoked := true, nuller := Some(t))), Try(Nulling, FromHResult(INVALID_ARGUMENT)))
      else After(w, Idle)
    case Drop =>
      if w.callback.remote && !w.callback.invoked && Stage(w.partner.view.life) <= 1 then LetGo(w, t, w.callback.local, false, Idle)
      else After(w, Idle)
  }

  function PcOf(s: State, t: Tid): Pc {
    if t in s.threads then s.threads[t] else Idle
  }

  function Moved(s: State, t: Tid, a: After): State {
    State(a.world, s.threads[t := a.pc])
  }

  predicate InBeginCall(s: State) {
    s.world.begun.tid.Some? && PcOf(s, s.world.begun.tid.value) == Starting(InBegin)
  }

  function Begins(w: World): After {
    if w.partner.view.life == Life.Created then
      After(w.(partner := w.partner.(view := Atomic(Call.Start, w.partner.view).view), callback := w.callback.(remote := true)), Starting(InBegin))
    else After(w, Starting(InBegin))
  }

  function Replies(w: World, reply: Reply): After {
    if reply.Context? then
      if w.partner.view.life != Life.Created then After(w.(begun := w.begun.(reply := Some(reply))), Starting(Check))
      else After(w, Starting(InBegin))
    else if w.partner.view.life != Life.Created || (reply.Failed? && reply.error >= 0) then After(w, Starting(InBegin))
    else
      After(w.(begun := w.begun.(reply := Some(reply)), callback := w.callback.(remote := reply.keeps)),
            Try(Failing, FromHResult(if reply.Failed? then reply.error else INVALID_ARGUMENT)))
  }

  function Step(s: State, e: Event): State {
    match e
    case Begin(t, request) => if PcOf(s, t).Idle? then Moved(s, t, Enter(s.world, t, request)) else s
    case Go(t) => Moved(s, t, Run(s.world, t, PcOf(s, t)))
    case MakeContext => if InBeginCall(s) then Moved(s, s.world.begun.tid.value, Begins(s.world)) else s
    case Answers(reply) => if InBeginCall(s) then Moved(s, s.world.begun.tid.value, Replies(s.world, reply)) else s
    case Look => s.(world := Looked(s.world))
    case EndNative => s.(world := EndedNative(s.world))
  }

  /** Any holder of the context may ask whether it has completed. */
  function Looked(w: World): World {
    if w.partner.view.life == Life.Created then w
    else w.(partner := w.partner.(view := Atomic(Observe, w.partner.view).view))
  }

  function EndedNative(w: World): World {
    w.(native := w.native.(view := Atomic(End, w.native.view).view))
  }

  function Exec(s: State, es: seq<Event>): State {
    if es == [] then s else Step(Exec(s, es[..|es| - 1]), es[|es| - 1])
  }

  // ---------------------------------------------------------------- facts about one thread

  predicate OfStarter(pc: Pc) {
    match pc
    case Starting(_) => true
    case EndCom(role) => role.Starter?
    case Try(role, _) => role.Starter? || role.Failing?
    case Finish(role, _) => role.Starter? || role.Failing?
    case CleanUp(role) => !role.Completer?
    case _ => false
  }

  predicate AwaitsReply(pc: Pc) {
    pc.Starting? && (pc.start.Call? || pc.start.InBegin?)
  }

  predicate Settled(life: Life) {
    Stage(life) >= 2
  }

  /** OnStart: from the call of Begin, through its reply and the verdict, to the end. */
  predicate StarterFacts(t: Tid, pc: Pc, b: Begun, local: bool, nativeLife: Life) {
    && (OfStarter(pc) ==> b.tid == Some(t))
    && (b.tid == Some(t) ==>
          && (local <==> OfStarter(pc) && pc != Starting(Call))
          && (b.reply.None? <==> AwaitsReply(pc))
          && (b.sync.None? <==> AwaitsReply(pc) || pc == Starting(Check) || !b.reply.value.Context?)
          && (b.called <==> b.sync == Some(true) && pc != EndCom(Starter))
          && (pc == Starting(Check) ==> b.reply == Some(Context))
          && (pc == Starting(Store) ==> b.sync == Some(false))
          && (OfStarter(pc) && !pc.Starting? ==> (if IsFailing(pc) then b.reply.value != Context else b.sync == Some(true)))
          && (!AwaitsReply(pc) && pc != Starting(Check) && !TriesToComplete(pc) && b.sync != Some(false) ==> Settled(nativeLife)))
  }

  predicate IsFailing(pc: Pc) {
    (pc.Try? || pc.Finish?) && pc.role.Failing?
  }

  /** The starter before its attempt to complete the native operation. */
  predicate TriesToComplete(pc: Pc) {
    OfStarter(pc) && (pc.EndCom? || pc.Try?)
  }

  predicate OfCompleter(pc: Pc) {
    match pc
    case SetResult(_, _) | Publish(_) | Invoke(_) | AskVerdict(_) | DropCallback(_) => true
    case EndCom(role) => role.Completer?
    case Try(role, _) => role.Completer?
    case Finish(role, _) => role.Completer?
    case CleanUp(role) => role.Completer?
    case _ => false
  }

  /** How far the thread that completes the context has come. */
  predicate CompleterFacts(t: Tid, pc: Pc, p: Partner, c: Callback, n: Native) {
    && (OfCompleter(pc) ==> p.owner == Some(t))
    && (p.owner == Some(t) ==>
          && (pc.SetResult? ==> p.winner == Some(pc.result))
          && (pc.Publish? ==> p.winner == Some(p.result))
          && (if pc.SetResult? || pc.Publish? then p.view.life == Completing else Stage(p.view.life) >= 3)
          && (if BeforeInvoke(pc) then !c.invoked && p.sync.None? else c.invoked <==> p.sync.Some? || pc.AskVerdict?)
          && (pc.AskVerdict? ==> p.sync.None?)
          && (p.called <==> p.sync == Some(false) && !(OfCompleter(pc) && pc.EndCom?))
          && (OfCompleter(pc) && (pc.EndCom? || pc.Try? || pc.Finish? || pc.CleanUp?) ==> p.sync == Some(false))
          && (OfCompleter(pc) && pc.DropCallback? && c.remote ==> c.invoked)
          && (!OfCompleter(pc) ==> !c.remote)
          && (p.sync == Some(false) && !(OfCompleter(pc) && (pc.EndCom? || pc.Try?)) ==> Settled(n.view.life))
          && (p.sync == Some(false) && CleanedUp(pc) && n.how.Some? && n.how.value.Completer? ==> !n.stored && Stage(n.view.life) >= 3))
  }

  predicate BeforeInvoke(pc: Pc) {
    pc.SetResult? || pc.Publish? || pc.Invoke?
  }

  predicate CleanedUp(pc: Pc) {
    !OfCompleter(pc) || pc.DropCallback?
  }

  /** A Cancel further down this thread's stack has claimed the native completion. */
  predicate CancelClaims(pc: Pc) {
    match pc
    case SetResult(_, r) => r == Some(true)
    case Publish(r) => r == Some(true)
    case Invoke(r) => r == Some(true)
    case AskVerdict(r) => r == Some(true)
    case DropCallback(r) => r == Some(true)
    case EndCom(role) => role == Completer(Some(true))
    case Try(role, _) => role == Completer(Some(true))
    case Finish(role, _) => role == Completer(Some(true)) || role.Canceller?
    case CleanUp(role) => role == Completer(Some(true))
    case Cancelling(at) => (at.ReadStored? || at.MarkContext? || at.ClaimContext?) && at.claimed
    case _ => false
  }

  predicate NativeFacts(t: Tid, pc: Pc, n: Native) {
    && (CancelClaims(pc) ==> n.claimer == Some(t) && n.how == Some(Canceller))
    && (pc.Finish? ==> n.claimer == Some(t) && n.how == Some(pc.role))
    && (n.claimer == Some(t) ==> if CancelClaims(pc) || pc.Finish? then n.view.life == Completing else Stage(n.view.life) >= 3)
  }

  /** The context's result, an HRESULT, as an error of the native operation. */
  predicate Carried(winner: Option<Value>, error: Value) {
    winner.Some? && error == FromHResult(winner.value)
  }

  /** Results on their way from the context to the native operation. */
  predicate CarryFacts(pc: Pc, winner: Option<Value>) {
    && (pc.EndCom? || pc.CleanUp? ==> pc.role.Starter? || pc.role.Completer?)
    && (pc.Try? ==> !pc.role.Canceller?)
    && ((pc.Try? || pc.Finish?) && (pc.role.Starter? || pc.role.Completer?) ==> Carried(winner, pc.error))
  }

  /** t destroyed the callback uninvoked. */
  predicate Destroys(t: Tid, c: Callback) {
    c.destroyer == Some(t) && !c.invoked
  }

  predicate CancelFacts(t: Tid, pc: Pc, n: Native, skip: bool, destroys: bool) {
    && (pc.Cancelling? && pc.cancel.Choose? ==> n.marker == Some(t) && n.force == pc.cancel.force)
    && (n.marker == Some(t) && !(pc.Cancelling? && pc.cancel.Choose?) && (!skip || n.force) ==> Settled(n.view.life))
    && (destroys ==> n.view.cancelled || (pc.Cancelling? && pc.cancel.Mark?))
  }

  predicate NullRuns(pc: Pc) {
    pc.NullDone? || ((pc.Try? || pc.Finish?) && pc.role.Nulling?)
  }

  predicate NullFacts(t: Tid, pc: Pc, c: Callback, nativeLife: Life) {
    && (NullRuns(pc) ==> c.nuller == Some(t) && c.remote)
    && (c.nuller == Some(t) && !(NullRuns(pc) && pc.Try?) ==> Settled(nativeLife))
  }

  predicate Facts(t: Tid, pc: Pc, w: World) {
    && StarterFacts(t, pc, w.begun, w.callback.local, w.native.view.life)
    && CompleterFacts(t, pc, w.partner, w.callback, w.native)
    && NativeFacts(t, pc, w.native)
    && CarryFacts(pc, w.partner.winner)
    && CancelFacts(t, pc, w.native, w.skip, Destroys(t, w.callback))
    && NullFacts(t, pc, w.callback, w.native.view.life)
  }

  // ---------------------------------------------------------------- facts about the whole

  /** The verdicts agree with the word, and so with each other. */
  predicate VerdictFacts(p: Partner, b: Begun) {
    && (b.sync == Some(true) || p.sync == Some(true) ==> Stage(p.view.life) >= 3 && !p.view.observed)
    && (b.sync == Some(false) || p.sync == Some(false) ==> p.view.observed)
    && (b.called ==> b.sync == Some(true))
    && (p.called ==> p.sync == Some(false))
    && (p.view.life == Ended <==> b.called || p.called)
  }

  predicate PartnerFacts(p: Partner, b: Begun, c: Callback) {
    && (p.owner.None? <==> Stage(p.view.life) <= 1)
    && (p.owner.None? ==> p.winner.None? && p.sync.None? && !p.called && (c.invoked ==> c.nuller.Some?))
    && (Stage(p.view.life) >= 3 ==> p.winner == Some(p.result))
    && (b.reply == Some(Context) ==> p.view.life != Life.Created)
    && (b.reply.Some? && b.reply.value != Context ==> p.view.life == Life.Created)
    && (b.tid.None? ==> b.reply.None? && b.sync.None? && !b.called && !c.local && p.view.life == Life.Created)
    && (b.sync.Some? ==> b.reply == Some(Context))
  }

  predicate CallbackFacts(c: Callback, reply: Option<Reply>, created: bool) {
    && (c.destroyed ==> !c.local && !c.remote && c.destroyer.Some? && reply.Some?)
    && (c.destroyed <==> c.destroyer.Some?)
    && (c.remote && !created ==> reply.Some?)
    && (c.remote && !c.local ==> reply.Some?)
    && (reply.Some? && !c.local && !c.remote ==> c.destroyed)
    && (c.nuller.Some? ==> c.invoked && !created && reply.Some?)
  }

  predicate NativeWorld(n: Native, skip: bool, reply: Option<Reply>, sync: Option<bool>, invoked: bool, owner: Option<Tid>, verdict: Option<bool>, winner: Option<Value>) {
    && (n.claimer.None? <==> n.view.life == Started)
    && n.view.life != Life.Created
    && (n.claimer.Some? <==> n.how.Some?)
    && (n.marker.Some? <==> n.view.cancelled)
    && (n.how == Some(Failing) ==> reply.Some? && reply.value != Context)
    && (n.how == Some(Starter) ==> sync == Some(true))
    && (n.how.Some? && (n.how.value.Completer? || n.how.value.Nulling?) ==> invoked)
    && (n.how == Some(Canceller) ==> n.view.cancelled && (!skip || n.force))
    && (n.how.Some? && (n.how.value.Starter? || n.how.value.Completer?) && Stage(n.view.life) >= 3 ==> Carried(winner, n.error))
    && (n.how.Some? && n.how.value.Completer? ==> n.claimer == owner && verdict == Some(false))
    && (n.stored ==> sync == Some(false))
  }

  predicate Global(w: World) {
    && VerdictFacts(w.partner, w.begun)
    && PartnerFacts(w.partner, w.begun, w.callback)
    && CallbackFacts(w.callback, w.begun.reply, w.partner.view.life != Life.Created)
    && NativeWorld(w.native, w.skip, w.begun.reply, w.begun.sync, w.callback.invoked, w.partner.owner, w.partner.sync, w.partner.winner)
    && w.calls == (if w.begun.called then 1 else 0) + (if w.partner.called then 1 else 0)
    && w.wasted == 0 && !w.broken
  }

  ghost predicate Inv(s: State) {
    Global(s.world) && forall t: Tid :: Facts(t, PcOf(s, t), s.world)
  }

  // ---------------------------------------------------------------- what others rely on

  predicate Kept(a: Option<Tid>, b: Option<Tid>, t: Tid) {
    b == a || (a.None? && b == Some(t))
  }

  predicate Rely(w: World, w': World, t: Tid) {
    var n, n', p, p', b, b', c, c' := w.native, w'.native, w.partner, w'.partner, w.begun, w'.begun, w.callback, w'.callback;
    && w'.skip == w.skip
    && Kept(b.tid, b'.tid, t) && Kept(p.owner, p'.owner, t) && Kept(n.claimer, n'.claimer, t)
    && Kept(n.marker, n'.marker, t) && Kept(c.nuller, c'.nuller, t) && Kept(c.destroyer, c'.destroyer, t)
    && (b'.tid == Some(t) || (b' == b && c'.local == c.local))
    && (p.owner.None? || p.owner == Some(t) ||
        (p' == p.(view := p'.view) && c'.invoked == c.invoked && c'.remote == c.remote))
    && (p'.owner == p.owner ==> p.owner == Some(t) || (p.view.life == Completing <==> p'.view.life == Completing))
    && (p.owner.Some? ==> p'.winner == p.winner)
    && Stage(p.view.life) <= Stage(p'.view.life) && Stage(n.view.life) <= Stage(n'.view.life)
    && (n.view.cancelled ==> n'.view.cancelled)
    && (n.marker.Some? ==> n'.force == n.force)
    && (n.claimer.None? || n.claimer == Some(t) || (n.view.life == Completing <==> n'.view.life == Completing))
    && (n.claimer.None? || n'.how == n.how)
    && (n'.how == n.how || (n'.how.Some? && n'.how.value.Completer? ==> p.owner == Some(t)))
    && (n'.stored ==> n.stored || Stage(n.view.life) < 3)
    && (c.nuller.None? || c.nuller == Some(t) || c'.remote == c.remote)
    && (c.invoked ==> c'.invoked)
  }

  lemma StarterStays(w: World, w': World, t: Tid, u: Tid, pc: Pc)
    requires u != t && Rely(w, w', t) && StarterFacts(u, pc, w.begun, w.callback.local, w.native.view.life)
    ensures StarterFacts(u, pc, w'.begun, w'.callback.local, w'.native.view.life)
  {
  }

  lemma CompleterStays(w: World, w': World, t: Tid, u: Tid, pc: Pc)
    requires u != t && Rely(w, w', t) && CompleterFacts(u, pc, w.partner, w.callback, w.native)
    ensures CompleterFacts(u, pc, w'.partner, w'.callback, w'.native)
  {
  }

  lemma NativeStays(w: World, w': World, t: Tid, u: Tid, pc: Pc)
    requires u != t && Rely(w, w', t) && NativeFacts(u, pc, w.native)
    ensures NativeFacts(u, pc, w'.native)
  {
  }

  lemma CarryStays(w: World, w': World, t: Tid, pc: Pc)
    requires Rely(w, w', t) && CarryFacts(pc, w.partner.winner) && (w.partner.owner.None? ==> w.partner.winner.None?)
    ensures CarryFacts(pc, w'.partner.winner)
  {
  }

  lemma CancelStays(w: World, w': World, t: Tid, u: Tid, pc: Pc)
    requires u != t && Rely(w, w', t) && CancelFacts(u, pc, w.native, w.skip, Destroys(u, w.callback))
    ensures CancelFacts(u, pc, w'.native, w'.skip, Destroys(u, w'.callback))
  {
  }

  lemma NullStays(w: World, w': World, t: Tid, u: Tid, pc: Pc)
    requires u != t && Rely(w, w', t) && NullFacts(u, pc, w.callback, w.native.view.life)
    ensures NullFacts(u, pc, w'.callback, w'.native.view.life)
  {
  }

  lemma FactsStay(w: World, w': World, t: Tid, u: Tid, pc: Pc)
    requires Global(w) && u != t && Rely(w, w', t) && Facts(u, pc, w)
    ensures Facts(u, pc, w')
  {
    hide Rely, StarterFacts, CompleterFacts, NativeFacts, CarryFacts, CancelFacts, NullFacts;
    StarterStays(w, w', t, u, pc);
    CompleterStays(w, w', t, u, pc);
    NativeStays(w, w', t, u, pc);
    CarryStays(w, w', t, pc);
    CancelStays(w, w', t, u, pc);
    NullStays(w, w', t, u, pc);
  }

  predicate StepOk(w: World, t: Tid, a: After) {
    Global(a.world) && Facts(t, a.pc, a.world) && Rely(w, a.world, t)
  }

  lemma StepSuffices(s: State, t: Tid, a: After)
    requires Inv(s) && StepOk(s.world, t, a)
    ensures Inv(Moved(s, t, a)) && a.world.skip == s.world.skip
  {
    RelyKeepsSkip(s.world, a.world, t);
    hide Global, Facts, Rely;
    forall u: Tid ensures Facts(u, PcOf(Moved(s, t, a), u), a.world) {
      if u != t { FactsStay(s.world, a.world, t, u, PcOf(s, u)); }
    }
  }

  lemma RelyReflexive(w: World, t: Tid)
    ensures Rely(w, w, t)
  {
  }

  lemma RelyKeepsSkip(w: World, w': World, t: Tid)
    requires Rely(w, w', t)
    ensures w'.skip == w.skip
  {
  }

  lemma StayOk(w: World, t: Tid, pc: Pc)
    requires Global(w) && Facts(t, pc, w)
    ensures StepOk(w, t, After(w, pc))
  {
    hide Global, Facts, Rely;
    RelyReflexive(w, t);
  }

  // ---------------------------------------------------------------- each step

  lemma CheckWorld(w: World, t: Tid)
    requires Global(w) && Facts(t, Starting(Check), w)
    ensures Global(RunStart(w, t, Check).world) && Rely(w, RunStart(w, t, Check).world, t)
  {
    hide CallbackFacts;
  }

  lemma CheckFacts(w: World, t: Tid)
    requires Global(w) && Facts(t, Starting(Check), w)
    ensures Facts(t, RunStart(w, t, Check).pc, RunStart(w, t, Check).world)
  {
  }

  lemma CheckOk(w: World, t: Tid)
    requires Global(w) && Facts(t, Starting(Check), w)
    ensures StepOk(w, t, RunStart(w, t, Check))
  {
    hide Global, Facts, Rely;
    CheckWorld(w, t);
    CheckFacts(w, t);
  }

  lemma StoreOk(w: World, t: Tid)
    requires Global(w) && Facts(t, Starting(Store), w)
    ensures StepOk(w, t, RunStart(w, t, Store))
  {
    hide VerdictFacts, PartnerFacts, CallbackFacts;
  }

  /** Who may let which reference to the callback go. */
  predicate MayLetGo(w: World, t: Tid, local: bool, remote: bool) {
    var c := w.callback;
    && (c.local || c.remote) && (local ==> c.local) && (remote ==> c.remote)
    && (c.local && !local ==> w.begun.tid == Some(t) && w.begun.reply.Some?)
    && (c.remote && !remote ==> w.partner.owner in {None, Some(t)} && c.nuller in {None, Some(t)})
  }

  lemma LetGoWorld(w: World, t: Tid, local: bool, remote: bool, next: Pc)
    requires Global(w) && MayLetGo(w, t, local, remote)
    ensures Global(LetGo(w, t, local, remote, next).world) && Rely(w, LetGo(w, t, local, remote, next).world, t)
  {
  }

  lemma ReleaseOk(w: World, t: Tid)
    requires Global(w) && Facts(t, Starting(Release), w)
    ensures StepOk(w, t, RunStart(w, t, Release))
  {
    LetGoWorld(w, t, false, w.callback.remote, Idle);
    hide Global, Rely;
  }

  lemma StartOk(w: World, t: Tid, at: StartPc)
    requires Global(w) && Facts(t, Starting(at), w)
    ensures StepOk(w, t, RunStart(w, t, at))
  {
    match at
    case Check => CheckOk(w, t);
    case Store => StoreOk(w, t);
    case Release => ReleaseOk(w, t);
    case _ =>
      hide VerdictFacts, PartnerFacts, NativeWorld, NativeFacts, NullFacts, CompleterFacts, CarryFacts;
  }

  lemma SetResultOk(w: World, t: Tid, result: Value, resume: Option<bool>)
    requires Global(w) && Facts(t, SetResult(result, resume), w)
    ensures StepOk(w, t, Run(w, t, SetResult(result, resume)))
  {
  }

  lemma PublishOk(w: World, t: Tid, resume: Option<bool>)
    requires Global(w) && Facts(t, Publish(resume), w)
    ensures StepOk(w, t, Run(w, t, Publish(resume)))
  {
  }

  lemma InvokeCalls(w: World, t: Tid, resume: Option<bool>)
    requires Global(w) && Facts(t, Invoke(resume), w) && w.callback.remote
    ensures StepOk(w, t, Run(w, t, Invoke(resume)))
  {
    hide VerdictFacts;
  }

  lemma InvokeOk(w: World, t: Tid, resume: Option<bool>)
    requires Global(w) && Facts(t, Invoke(resume), w)
    ensures StepOk(w, t, Run(w, t, Invoke(resume)))
  {
    if w.callback.remote {
      InvokeCalls(w, t, resume);
    } else {
      hide Rely, Global, StepOk;
      StayOk(w, t, DropCallback(resume));
    }
  }

  lemma VerdictOk(w: World, t: Tid, resume: Option<bool>)
    requires Global(w) && Facts(t, AskVerdict(resume), w)
    ensures StepOk(w, t, Run(w, t, AskVerdict(resume)))
  {
  }

  lemma DropCallbackOk(w: World, t: Tid, resume: Option<bool>)
    requires Global(w) && Facts(t, DropCallback(resume), w)
    ensures StepOk(w, t, Run(w, t, DropCallback(resume)))
  {
    if w.callback.remote {
      LetGoWorld(w, t, w.callback.local, false, Resumed(resume));
      hide Global, Rely;
      assert StepOk(w, t, Run(w, t, DropCallback(resume)));
    } else {
      hide Rely, Global, StepOk;
      StayOk(w, t, Resumed(resume));
    }
  }

  lemma EndComWorld(w: World, t: Tid, role: Role)
    requires Global(w) && Facts(t, EndCom(role), w)
    ensures Global(RunEnd(w, role).world) && Rely(w, RunEnd(w, role).world, t)
  {
    hide CallbackFacts, NativeWorld;
  }

  lemma EndComFacts(w: World, t: Tid, role: Role)
    requires Global(w) && Facts(t, EndCom(role), w)
    ensures Facts(t, RunEnd(w, role).pc, RunEnd(w, role).world)
  {
  }

  lemma EndComOk(w: World, t: Tid, role: Role)
    requires Global(w) && Facts(t, EndCom(role), w)
    ensures StepOk(w, t, RunEnd(w, role))
  {
    hide Global, Facts, Rely;
    EndComWorld(w, t, role);
    EndComFacts(w, t, role);
  }

  /** On whose behalf t may claim the completion of the native operation. */
  predicate MayClaim(w: World, t: Tid, role: Role) {
    match role
    case Failing => w.begun.reply.Some? && w.begun.reply.value != Context
    case Starter => w.begun.sync == Some(true)
    case Completer(_) => w.partner.owner == Some(t) && w.partner.sync == Some(false) && w.callback.invoked
    case Nulling => w.callback.invoked
    case Canceller => w.native.view.cancelled && (!w.skip || w.native.force)
  }

  function Claimed(w: World, t: Tid, role: Role): World {
    ClaimNative(w, t, role, Idle, Idle).world
  }

  lemma ClaimWorld(w: World, t: Tid, role: Role)
    requires Global(w) && w.native.view.life == Started && MayClaim(w, t, role)
    ensures Global(Claimed(w, t, role)) && Rely(w, Claimed(w, t, role), t)
  {
    hide VerdictFacts, PartnerFacts, CallbackFacts;
  }

  lemma TryMayClaim(w: World, t: Tid, role: Role, error: Value)
    requires Global(w) && Facts(t, Try(role, error), w)
    ensures MayClaim(w, t, role)
  {
    hide VerdictFacts, NativeWorld, NativeFacts, CancelFacts;
  }

  lemma ClaimedFacts(w: World, t: Tid, role: Role, error: Value)
    requires Facts(t, Try(role, error), w) && w.native.claimer.None? && w.native.view.life == Started
    ensures Facts(t, Finish(role, error), Claimed(w, t, role))
  {
  }

  lemma TryWins(w: World, t: Tid, role: Role, error: Value)
    requires Global(w) && Facts(t, Try(role, error), w) && w.native.view.life == Started
    ensures StepOk(w, t, Run(w, t, Try(role, error)))
  {
    assert w.native.claimer.None?;
    hide Global, Rely, Facts, MayClaim;
    TryMayClaim(w, t, role, error);
    ClaimWorld(w, t, role);
    ClaimedFacts(w, t, role, error);
  }

  lemma ChooseWins(w: World, t: Tid, force: bool)
    requires Global(w) && Facts(t, Cancelling(Choose(force)), w) && !(!force && w.skip) && w.native.view.life == Started
    ensures StepOk(w, t, RunCancel(w, t, Choose(force)))
  {
    assert w.native.marker.Some? ==> w.native.view.cancelled;
    assert w.native.claimer.None?;
    ClaimWorld(w, t, Canceller);
    hide Global, Rely;
  }

  lemma MarkWins(w: World, t: Tid, force: bool)
    requires Global(w) && Facts(t, Cancelling(Mark(force)), w) && !w.native.view.cancelled
    ensures StepOk(w, t, RunCancel(w, t, Mark(force)))
  {
    hide VerdictFacts, PartnerFacts, CallbackFacts;
  }

  lemma ClaimContextWins(w: World, t: Tid, result: Value, resume: Option<bool>, at: Pc)
    requires Global(w) && Facts(t, at, w) && w.partner.view.life == Started
    requires if resume.None? then at == Serving(result) else at == Cancelling(ClaimContext(resume.value))
    ensures StepOk(w, t, ClaimContextWord(w, t, result, resume, Resumed(resume)))
  {
  }

  lemma EnterStartOk(w: World, t: Tid)
    requires Global(w) && Facts(t, Idle, w)
    ensures StepOk(w, t, Enter(w, t, Request.Start))
  {
  }

  lemma InvokeNullWorld(w: World, t: Tid)
    requires Global(w) && Facts(t, Idle, w)
    ensures Global(Enter(w, t, InvokeNull).world) && Rely(w, Enter(w, t, InvokeNull).world, t)
  {
    hide VerdictFacts;
  }

  lemma InvokeNullFacts(w: World, t: Tid)
    requires Global(w) && Facts(t, Idle, w)
    ensures Facts(t, Enter(w, t, InvokeNull).pc, Enter(w, t, InvokeNull).world)
  {
  }

  lemma InvokeNullOk(w: World, t: Tid)
    requires Global(w) && Facts(t, Idle, w)
    ensures StepOk(w, t, Enter(w, t, InvokeNull))
  {
    hide Global, Facts, Rely;
    InvokeNullWorld(w, t);
    InvokeNullFacts(w, t);
  }

  lemma DropOk(w: World, t: Tid)
    requires Global(w) && Facts(t, Idle, w)
    ensures StepOk(w, t, Enter(w, t, Drop))
  {
    if Enter(w, t, Drop) != After(w, Idle) {
      LetGoWorld(w, t, w.callback.local, false, Idle);
      hide Global, Rely;
      assert StepOk(w, t, Enter(w, t, Drop));
    } else {
      hide Rely, Global, StepOk;
      StayOk(w, t, Idle);
    }
  }

  lemma TryFails(w: World, t: Tid, role: Role, error: Value)
    requires Global(w) && Facts(t, Try(role, error), w) && w.native.view.life != Started
    ensures StepOk(w, t, Run(w, t, Try(role, error)))
  {
    hide Rely, VerdictFacts, CallbackFacts, PartnerFacts, StepOk;
    StayOk(w, t, ReturnPc(role));
  }

  lemma TryOk(w: World, t: Tid, role: Role, error: Value)
    requires Global(w) && Facts(t, Try(role, error), w)
    ensures StepOk(w, t, Run(w, t, Try(role, error)))
  {
    if w.native.view.life == Started {
      TryWins(w, t, role, error);
    } else {
      TryFails(w, t, role, error);
    }
  }

  lemma FinishOk(w: World, t: Tid, role: Role, error: Value)
    requires Global(w) && Facts(t, Finish(role, error), w)
    ensures StepOk(w, t, RunFinish(w, role, error))
  {
    hide VerdictFacts, PartnerFacts, CallbackFacts;
  }

  lemma CleanUpWorld(w: World, t: Tid, role: Role)
    requires Global(w) && Facts(t, CleanUp(role), w)
    ensures Global(Run(w, t, CleanUp(role)).world) && Rely(w, Run(w, t, CleanUp(role)).world, t)
  {
    hide VerdictFacts, PartnerFacts, CallbackFacts;
  }

  lemma CleanUpFacts(w: World, t: Tid, role: Role)
    requires Global(w) && Facts(t, CleanUp(role), w)
    ensures Facts(t, Run(w, t, CleanUp(role)).pc, Run(w, t, CleanUp(role)).world)
  {
  }

  lemma CleanUpOk(w: World, t: Tid, role: Role)
    requires Global(w) && Facts(t, CleanUp(role), w)
    ensures StepOk(w, t, Run(w, t, CleanUp(role)))
  {
    hide Global, Facts, Rely;
    CleanUpWorld(w, t, role);
    CleanUpFacts(w, t, role);
  }

  lemma NullDoneOk(w: World, t: Tid)
    requires Global(w) && Facts(t, NullDone, w)
    ensures StepOk(w, t, Run(w, t, NullDone))
  {
    LetGoWorld(w, t, w.callback.local, false, Idle);
    hide Global, Rely;
  }

  lemma MarkOk(w: World, t: Tid, force: bool)
    requires Global(w) && Facts(t, Cancelling(Mark(force)), w)
    ensures StepOk(w, t, RunCancel(w, t, Mark(force)))
  {
    if w.native.view.cancelled {
      hide Rely, VerdictFacts, CallbackFacts, PartnerFacts, StepOk;
      StayOk(w, t, Idle);
    } else {
      MarkWins(w, t, force);
    }
  }

  lemma ChooseOk(w: World, t: Tid, force: bool)
    requires Global(w) && Facts(t, Cancelling(Choose(force)), w)
    ensures StepOk(w, t, RunCancel(w, t, Choose(force)))
  {
    if (!force && w.skip) || w.native.view.life != Started {
      hide Rely, VerdictFacts, CallbackFacts, PartnerFacts, StepOk;
      StayOk(w, t, RunCancel(w, t, Choose(force)).pc);
    } else {
      ChooseWins(w, t, force);
    }
  }

  lemma ReadStoredOk(w: World, t: Tid, claimed: bool)
    requires Global(w) && Facts(t, Cancelling(ReadStored(claimed)), w)
    ensures StepOk(w, t, RunCancel(w, t, ReadStored(claimed)))
  {
    hide Rely, Global, StepOk, Facts;
    ResumedFacts(w, t, claimed, Cancelling(ReadStored(claimed)));
    InCancelFacts(w, t, claimed, Cancelling(ReadStored(claimed)), Cancelling(MarkContext(claimed)));
    StayOk(w, t, RunCancel(w, t, ReadStored(claimed)).pc);
  }

  predicate InCancel(pc: Pc, claimed: bool) {
    pc.Cancelling? && (pc.cancel.ReadStored? || pc.cancel.MarkContext? || pc.cancel.ClaimContext?) && pc.cancel.claimed == claimed
  }

  /** Nothing depends on how far a Cancel has come beyond its claim. */
  lemma ResumedFacts(w: World, t: Tid, claimed: bool, at: Pc)
    requires Facts(t, at, w) && InCancel(at, claimed)
    ensures Facts(t, Resumed(Some(claimed)), w)
  {
  }

  lemma InCancelFacts(w: World, t: Tid, claimed: bool, at: Pc, at': Pc)
    requires Facts(t, at, w) && InCancel(at, claimed) && InCancel(at', claimed)
    ensures Facts(t, at', w)
  {
  }

  lemma ServingFacts(w: World, t: Tid, result: Value)
    requires Facts(t, Serving(result), w)
    ensures Facts(t, Idle, w)
  {
  }

  function Flagged(w: World): World {
    w.(partner := w.partner.(view := Atomic(RequestCancel, w.partner.view).view))
  }

  lemma MarkContextWorld(w: World, t: Tid)
    requires Global(w)
    ensures Global(Flagged(w)) && Rely(w, Flagged(w), t)
  {
  }

  lemma MarkContextFacts(w: World, t: Tid, pc: Pc)
    requires Facts(t, pc, w)
    ensures Facts(t, pc, Flagged(w))
  {
  }

  lemma MarkContextOk(w: World, t: Tid, claimed: bool)
    requires Global(w) && Facts(t, Cancelling(MarkContext(claimed)), w)
    ensures StepOk(w, t, RunCancel(w, t, MarkContext(claimed)))
  {
    var a := RunCancel(w, t, MarkContext(claimed));
    assert a.world == Flagged(w);
    MarkContextWorld(w, t);
    hide Global, Rely, Facts;
    ResumedFacts(w, t, claimed, Cancelling(MarkContext(claimed)));
    InCancelFacts(w, t, claimed, Cancelling(MarkContext(claimed)), Cancelling(ClaimContext(claimed)));
    MarkContextFacts(w, t, a.pc);
  }

  lemma ClaimContextOk(w: World, t: Tid, result: Value, resume: Option<bool>, at: Pc)
    requires Global(w) && Facts(t, at, w)
    requires if resume.None? then at == Serving(result) else at == Cancelling(ClaimContext(resume.value))
    ensures StepOk(w, t, ClaimContextWord(w, t, result, resume, Resumed(resume)))
  {
    if w.partner.view.life == Started {
      ClaimContextWins(w, t, result, resume, at);
    } else {
      hide Rely, Global, StepOk, Facts;
      if resume.None? { ServingFacts(w, t, result); } else { ResumedFacts(w, t, resume.value, at); }
      StayOk(w, t, Resumed(resume));
    }
  }

  lemma CancelOk(w: World, t: Tid, at: CancelPc)
    requires Global(w) && Facts(t, Cancelling(at), w)
    ensures StepOk(w, t, RunCancel(w, t, at))
  {
    match at
    case Mark(force) => MarkOk(w, t, force);
    case Choose(force) => ChooseOk(w, t, force);
    case ReadStored(claimed) => ReadStoredOk(w, t, claimed);
    case MarkContext(claimed) => MarkContextOk(w, t, claimed);
    case ClaimContext(claimed) => ClaimContextOk(w, t, OPERATION_CANCELED, Some(claimed), Cancelling(at));
  }

  lemma EnterOk(w: World, t: Tid, request: Request)
    requires Global(w) && Facts(t, Idle, w)
    ensures StepOk(w, t, Enter(w, t, request))
  {
    match request
    case Start => EnterStartOk(w, t);
    case InvokeNull => InvokeNullOk(w, t);
    case Drop => DropOk(w, t);
    case _ =>
      hide Rely, Global, StepOk;
      StayOk(w, t, Enter(w, t, request).pc);
  }

  lemma BeginsOk(w: World, t: Tid)
    requires Global(w) && Facts(t, Starting(InBegin), w)
    ensures StepOk(w, t, Begins(w))
  {
  }

  lemma RepliesWorld(w: World, t: Tid, reply: Reply)
    requires Global(w) && Facts(t, Starting(InBegin), w)
    ensures Global(Replies(w, reply).world) && Rely(w, Replies(w, reply).world, t)
  {
  }

  lemma RepliesFacts(w: World, t: Tid, reply: Reply)
    requires Global(w) && Facts(t, Starting(InBegin), w)
    ensures Facts(t, Replies(w, reply).pc, Replies(w, reply).world)
  {
  }

  lemma RepliesOk(w: World, t: Tid, reply: Reply)
    requires Global(w) && Facts(t, Starting(InBegin), w)
    ensures StepOk(w, t, Replies(w, reply))
  {
    hide Global, Facts, Rely;
    RepliesWorld(w, t, reply);
    RepliesFacts(w, t, reply);
  }

  // ---------------------------------------------------------------- steps and runs

  lemma RunOk(w: World, t: Tid, pc: Pc)
    requires Global(w) && Facts(t, pc, w)
    ensures StepOk(w, t, Run(w, t, pc))
  {
    hide Global, Facts, Rely, StepOk, RunStart, RunCancel, RunEnd, RunFinish, RunPublish, RunVerdict, ClaimContextWord, ClaimNative, LetGo;
    match pc
    case Idle => StayOk(w, t, Idle);
    case Starting(at) => StartOk(w, t, at);
    case Serving(result) => ClaimContextOk(w, t, result, None, pc);
    case SetResult(result, resume) => SetResultOk(w, t, result, resume);
    case Publish(resume) => PublishOk(w, t, resume);
    case Invoke(resume) => InvokeOk(w, t, resume);
    case AskVerdict(resume) => VerdictOk(w, t, resume);
    case DropCallback(resume) => DropCallbackOk(w, t, resume);
    case EndCom(role) => EndComOk(w, t, role);
    case Try(role, error) => TryOk(w, t, role, error);
    case Finish(role, error) => FinishOk(w, t, role, error);
    case CleanUp(role) => CleanUpOk(w, t, role);
    case NullDone => NullDoneOk(w, t);
    case Cancelling(at) => CancelOk(w, t, at);
  }

  /** Environment events disturb no thread. */
  lemma LookedOk(w: World, t: Tid)
    requires Global(w)
    ensures Global(Looked(w)) && Rely(w, Looked(w), t)
  {
    hide CallbackFacts, NativeWorld;
  }

  lemma EndedNativeOk(w: World, t: Tid)
    requires Global(w)
    ensures Global(EndedNative(w)) && Rely(w, EndedNative(w), t)
  {
    hide VerdictFacts, PartnerFacts, CallbackFacts;
  }

  lemma EnvironmentOk(w: World, w': World, t: Tid)
    requires Global(w) && (w' == Looked(w) || w' == EndedNative(w))
    ensures Global(w') && Rely(w, w', t)
  {
    hide Global, Rely, Looked, EndedNative;
    LookedOk(w, t);
    EndedNativeOk(w, t);
  }

  lemma StepKeepsInv(s: State, e: Event)
    requires Inv(s)
    ensures Inv(Step(s, e)) && Step(s, e).world.skip == s.world.skip
  {
    hide Global, Facts, Rely, StepOk, Run, Enter, Begins, Replies, Looked, EndedNative;
    match e
    case Begin(t, request) =>
      if PcOf(s, t).Idle? {
        EnterOk(s.world, t, request);
        StepSuffices(s, t, Enter(s.world, t, request));
      }
    case Go(t) =>
      RunOk(s.world, t, PcOf(s, t));
      StepSuffices(s, t, Run(s.world, t, PcOf(s, t)));
    case MakeContext =>
      if InBeginCall(s) {
        var t := s.world.begun.tid.value;
        BeginsOk(s.world, t);
        StepSuffices(s, t, Begins(s.world));
      }
    case Answers(reply) =>
      if InBeginCall(s) {
        var t := s.world.begun.tid.value;
        RepliesOk(s.world, t, reply);
        StepSuffices(s, t, Replies(s.world, reply));
      }
    case _ =>
      var s' := Step(s, e);
      EnvironmentOk(s.world, s'.world, 0);
      RelyKeepsSkip(s.world, s'.world, 0);
      forall u: Tid ensures Global(s'.world) && Facts(u, PcOf(s', u), s'.world) {
        EnvironmentOk(s.world, s'.world, u + 1);
        FactsStay(s.world, s'.world, u + 1, u, PcOf(s, u));
      }
      assert Facts(0, PcOf(s', 0), s'.world);
  }

  lemma {:induction false} ExecKeepsInv(skip: bool, contextSkip: bool, es: seq<Event>)
    ensures Inv(Exec(Initial(skip, contextSkip), es)) && Exec(Initial(skip, contextSkip), es).world.skip == skip
  {
    if es != [] {
      var n := |es| - 1;
      ExecKeepsInv(skip, contextSkip, es[..n]);
      var s := Exec(Initial(skip, contextSkip), es[..n]);
      hide Inv;
      StepKeepsInv(s, es[n]);
    }
  }

  // ---------------------------------------------------------------- what holds in every run

  predicate StarterDone(s: State) {
    s.world.begun.tid.Some? && !OfStarter(PcOf(s, s.world.begun.tid.value))
  }

  predicate CompleterDone(s: State) {
    s.world.partner.owner.Some? && !OfCompleter(PcOf(s, s.world.partner.owner.value))
  }

  /** In every run: EndComAsyncOperation is called at most once, never before the
      context has completed, and both threads are given the same verdict. Once
      both have passed their check on a context that completed, it was called
      exactly once, whatever became of the native operation meanwhile. */
  lemma EndsContextExactlyOnce(skip: bool, contextSkip: bool, es: seq<Event>)
    ensures var s := Exec(Initial(skip, contextSkip), es);
            var b, p := s.world.begun, s.world.partner;
            && s.world.calls <= 1 && s.world.wasted == 0 && !s.world.broken
            && (s.world.calls == 1 <==> p.view.life == Ended)
            && (b.sync.Some? && p.sync.Some? ==> b.sync == p.sync)
            && (b.sync.Some? && p.sync.Some? && StarterDone(s) && CompleterDone(s) ==> s.world.calls == 1)
            && (StarterDone(s) && CompleterDone(s) ==> (s.world.calls == 1 <==> b.sync == Some(true) || s.world.callback.invoked))
            && (p.owner.None? ==> s.world.calls == 0)
  {
    ExecKeepsInv(skip, contextSkip, es);
    var s := Exec(Initial(skip, contextSkip), es);
    hide Exec;
    VerdictIsEither(s.world.begun.sync);
    VerdictIsEither(s.world.partner.sync);
    if s.world.begun.tid.Some? { assert Facts(s.world.begun.tid.value, PcOf(s, s.world.begun.tid.value), s.world); }
    if s.world.partner.owner.Some? { assert Facts(s.world.partner.owner.value, PcOf(s, s.world.partner.owner.value), s.world); }
  }

  /** What each assertion is about, when its statement comes next: the transitions find the
      word as they need it, and the callback has not been invoked before. */
  lemma AssertionsHold(skip: bool, contextSkip: bool, es: seq<Event>, t: Tid)
    ensures var s := Exec(Initial(skip, contextSkip), es);
            var pc := PcOf(s, t);
            && (pc.Publish? ==> s.world.partner.view.life == Completing)
            && (pc.Finish? ==> s.world.native.view.life == Completing)
            && (pc.Invoke? ==> !s.world.callback.invoked)
            && (pc.EndCom? ==> s.world.partner.view.life == Completed)
  {
    ExecKeepsInv(skip, contextSkip, es);
    var s := Exec(Initial(skip, contextSkip), es);
    hide Exec, Initial;
    assert Facts(t, PcOf(s, t), s.world);
    VerdictIsEither(s.world.begun.sync);
    VerdictIsEither(s.world.partner.sync);
  }

  predicate Quiet(s: State) {
    forall t :: t in s.threads ==> s.threads[t].Idle?
  }

  /** Is there anything that completes the native operation once the callback is gone? */
  predicate SomethingCompletes(w: World) {
    || !w.skip || (w.native.marker.Some? && w.native.force)
    || w.callback.invoked || w.begun.sync == Some(true)
    || (w.begun.reply.Some? && w.begun.reply.value != Context)
  }

  /** No stranded proxy: when the callback object is gone and no thread is inside,
      the native operation has completed, unless cancelling it only signals and
      the partner let the callback go uninvoked after an asynchronous Begin. */
  lemma NoStrandedProxy(skip: bool, contextSkip: bool, es: seq<Event>)
    requires Quiet(Exec(Initial(skip, contextSkip), es))
    requires Exec(Initial(skip, contextSkip), es).world.callback.destroyed
    ensures var w := Exec(Initial(skip, contextSkip), es).world;
            && (w.native.view.life in {Completed, Ended} <==> SomethingCompletes(w))
            && (!skip ==> w.native.view.life in {Completed, Ended})
  {
    ExecKeepsInv(skip, contextSkip, es);
    var s := Exec(Initial(skip, contextSkip), es);
    hide Exec;
    QuietFacts(s);
  }

  lemma QuietFacts(s: State)
    requires Inv(s) && Quiet(s) && s.world.callback.destroyed
    ensures s.world.native.view.life in {Completed, Ended} <==> SomethingCompletes(s.world)
  {
    var w := s.world;
    forall t: Tid ensures Facts(t, Idle, w) {
      assert PcOf(s, t) == Idle;
    }
    hide Inv;
    QuietWorld(w);
  }

  lemma VerdictIsEither(v: Option<bool>)
    ensures v.Some? ==> v == Some(true) || v == Some(false)
  {
    if v.Some? && v.value { assert v == Some(true); }
  }

  lemma QuietWorld(w: World)
    requires Global(w) && (forall t: Tid :: Facts(t, Idle, w)) && w.callback.destroyed
    ensures w.native.view.life in {Completed, Ended} <==> SomethingCompletes(w)
  {
    IdleKnows(w, w.native.claimer);
    IdleKnows(w, w.native.marker);
    IdleKnows(w, w.callback.destroyer);
    IdleKnows(w, w.callback.nuller);
    IdleKnows(w, w.partner.owner);
    IdleKnows(w, w.begun.tid);
    VerdictIsEither(w.begun.sync);
    VerdictIsEither(w.partner.sync);
  }

  lemma IdleKnows(w: World, t: Option<Tid>)
    requires forall t: Tid :: Facts(t, Idle, w)
    ensures t.Some? ==> Facts(t.value, Idle, w)
  {
  }

  /** The result of the context reaches the native operation when the thread that
      ended the context also won the native completion, and then OnStart does not
      leave the context stored behind it. */
  lemma ResultIsCarried(skip: bool, contextSkip: bool, es: seq<Event>)
    ensures var s := Exec(Initial(skip, contextSkip), es);
            var n, p := s.world.native, s.world.partner;
            n.how.Some? && (n.how.value.Starter? || n.how.value.Completer?) && n.view.life in {Completed, Ended} ==>
              && Carried(p.winner, n.error)
              && (n.how.value.Starter? || CompleterDone(s) ==> !n.stored)
  {
    ExecKeepsInv(skip, contextSkip, es);
    var s := Exec(Initial(skip, contextSkip), es);
    hide Exec;
    if s.world.partner.owner.Some? { assert Facts(s.world.partner.owner.value, PcOf(s, s.world.partner.owner.value), s.world); }
  }

  // ---------------------------------------------------------------- a stranded run

  lemma Extend(start: State, es: seq<Event>, s: State, e: Event) returns (longer: seq<Event>)
    requires Exec(start, es) == s
    ensures Exec(start, longer) == Step(s, e)
  {
    longer := es + [e];
    assert longer[..|longer| - 1] == es;
  }

  /** Thread t, and no other, takes one step. */
  lemma Goes(start: State, es: seq<Event>, s: State, t: Tid, a: After) returns (longer: seq<Event>, s': State)
    requires Exec(start, es) == s && Run(s.world, t, PcOf(s, t)) == a
    ensures s' == Moved(s, t, a) && Exec(start, longer) == s' && PcOf(s', t) == a.pc
  {
    longer := Extend(start, es, s, Go(t));
    s' := Moved(s, t, a);
  }

  /** Begin has replied with a context that had not completed, and OnStart is back. */
  predicate Waiting(s: State) {
    && Quiet(s) && s.world.skip && s.world.native.view == View(Started, false, false) && s.world.native.stored
    && s.world.partner.view.life == Started && s.world.begun.reply == Some(Context)
    && s.world.callback == Callback(false, true, false, false, None, None)
  }

  lemma BeginsAsynchronously(contextSkip: bool) returns (es: seq<Event>)
    ensures Waiting(Exec(Initial(true, contextSkip), es))
  {
    var start := Initial(true, contextSkip);
    var s := start;
    es := Extend(start, [], s, Begin(0, Request.Start));
    s := Step(s, Begin(0, Request.Start));
    hide Exec, ClaimNative, ClaimContextWord, RunCancel, RunEnd, RunFinish, RunPublish, RunVerdict;
    es, s := Goes(start, es, s, 0, Run(s.world, 0, Starting(Call)));
    es := Extend(start, es, s, MakeContext);
    s := Step(s, MakeContext);
    assert PcOf(s, 0) == Starting(InBegin);
    es := Extend(start, es, s, Answers(Context));
    s := Step(s, Answers(Context));
    assert PcOf(s, 0) == Starting(Check);
    es := ReturnsAsynchronously(start, es, s);
  }

  lemma ReturnsAsynchronously(start: State, before: seq<Event>, s0: State) returns (es: seq<Event>)
    requires Exec(start, before) == s0 && PcOf(s0, 0) == Starting(Check)
    requires forall t :: t in s0.threads && t != 0 ==> s0.threads[t].Idle?
    requires s0.world.skip && s0.world.native.view == View(Started, false, false) && s0.world.begun.reply == Some(Context)
    requires s0.world.partner.view.life == Started && s0.world.callback == Callback(true, true, false, false, None, None)
    ensures Waiting(Exec(start, es))
  {
    es := before;
    var s := s0;
    hide Exec, ClaimNative, ClaimContextWord, RunCancel, RunEnd, RunFinish, RunPublish, RunVerdict;
    es, s := Goes(start, es, s, 0, Run(s.world, 0, Starting(Check)));
    es, s := Goes(start, es, s, 0, Run(s.world, 0, Starting(Store)));
    es, s := Goes(start, es, s, 0, Run(s.world, 0, Starting(Release)));
  }

  lemma PartnerLetsGo(start: State, before: seq<Event>, s0: State) returns (es: seq<Event>)
    requires Exec(start, before) == s0 && Waiting(s0)
    ensures var s := Exec(start, es);
            Quiet(s) && s.world.callback.destroyed && s.world.native.view.life == Started && s.world.begun == s0.world.begun
  {
    hide Exec;
    es := Extend(start, before, s0, Begin(1, Drop));
    var s := Step(s0, Begin(1, Drop));
    var force := false;
    es, s := Goes(start, es, s, 1, RunCancel(s.world, 1, Mark(force)));
    es, s := Goes(start, es, s, 1, RunCancel(s.world, 1, Choose(force)));
    es, s := Goes(start, es, s, 1, RunCancel(s.world, 1, ReadStored(false)));
    es, s := Goes(start, es, s, 1, RunCancel(s.world, 1, MarkContext(false)));
    if !PcOf(s, 1).Idle? {
      es, s := Goes(start, es, s, 1, RunCancel(s.world, 1, ClaimContext(false)));
      es := ContextCompletesUnheard(start, es, s, OPERATION_CANCELED);
    }
  }

  lemma ContextCompletesUnheard(start: State, before: seq<Event>, s0: State, result: Value) returns (es: seq<Event>)
    requires Exec(start, before) == s0 && PcOf(s0, 1) == SetResult(result, Some(false)) && !s0.world.callback.remote
    requires forall t :: t in s0.threads && t != 1 ==> s0.threads[t].Idle?
    ensures var s := Exec(start, es);
            && Quiet(s) && s.world.callback == s0.world.callback
            && s.world.native == s0.world.native && s.world.begun == s0.world.begun
  {
    hide Exec;
    var s := s0;
    var resume := Some(false);
    es, s := Goes(start, before, s, 1, Run(s.world, 1, SetResult(result, resume)));
    es, s := Goes(start, es, s, 1, Run(s.world, 1, Publish(resume)));
    es, s := Goes(start, es, s, 1, Run(s.world, 1, Invoke(resume)));
    es, s := Goes(start, es, s, 1, Run(s.world, 1, DropCallback(resume)));
  }

  /** With skipCompleteOnCancel a run may end with the proxy stranded. */
  lemma StrandedWhenCancelOnlySignals(contextSkip: bool) returns (es: seq<Event>)
    ensures var s := Exec(Initial(true, contextSkip), es);
            Quiet(s) && s.world.callback.destroyed && s.world.native.view.life == Started && s.world.begun.reply == Some(Context)
  {
    hide Exec;
    es := BeginsAsynchronously(contextSkip);
    es := PartnerLetsGo(Initial(true, contextSkip), es, Exec(Initial(true, contextSkip), es));
  }
}
