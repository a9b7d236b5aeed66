/** What a request asks of a ComAsyncOperationContext is what the threads of ComContext make
    of it: where the result comes from that End hands out, and what each call comes to that
    one thread makes alone. */
module ContextCalls {
  import opened Threads
  import opened LifecycleWord
  import opened ErrorCodes
  import opened ComContext

  // ---------------------------------------------------------------- whose result it is

  predicate Asked(es: seq<Event>, t: Tid, pc: Pc) {
    match pc
    case Trying(result) => Begin(t, TryComplete(result)) in es
    case Cancelling(_) => Begin(t, Request.Cancel) in es
    case _ => true
  }

  /** t was asked to complete with this result, or to cancel and that completes. */
  predicate WonFor(es: seq<Event>, t: Tid, result: Value, skip: bool) {
    Begin(t, TryComplete(result)) in es || (result == OPERATION_CANCELED && !skip && Begin(t, Request.Cancel) in es)
  }

  ghost predicate Provenance(es: seq<Event>, s: State) {
    && (forall t :: t in s.threads ==> Asked(es, t, s.threads[t]))
    && (s.done.winner.Some? <==> s.done.owner.Some?)
    && (s.done.owner.Some? ==> WonFor(es, s.done.owner.value, s.done.winner.value, s.skip))
  }

  lemma OthersKeepProvenance(es: seq<Event>, s: State, s': State, t: Tid)
    requires Provenance(es, s) && Asked(es, t, PcOf(s', t))
    requires s'.threads == s.threads[t := PcOf(s', t)] && s'.skip == s.skip
    requires s'.done.winner == s.done.winner && s'.done.owner == s.done.owner
    ensures Provenance(es, s')
  {
    hide Asked, WonFor;
  }

  lemma TryKeepsProvenance(es: seq<Event>, s: State, t: Tid, result: Value)
    requires Provenance(es, s) && WonFor(es, t, result, s.skip)
    ensures Provenance(es, ComContext.Completing(s, t, result))
  {
    hide WonFor;
  }

  lemma StartKeepsProvenance(es: seq<Event>, s: State, t: Tid, at: StartPc)
    requires Provenance(es, s) && PcOf(s, t) == Starting(at)
    ensures Provenance(es, RunStart(s, t, at))
  {
    hide Provenance, WonFor;
    OthersKeepProvenance(es, s, RunStart(s, t, at), t);
  }

  lemma CancelKeepsProvenance(es: seq<Event>, s: State, t: Tid, at: CancelPc)
    requires Provenance(es, s) && PcOf(s, t) == Cancelling(at)
    ensures Provenance(es, RunCancel(s, t, at))
  {
    assert Asked(es, t, PcOf(s, t));
    hide Provenance, ComContext.Completing;
    if at.Decide? && !s.skip {
      DecideCompletes(s, t);
      TryKeepsProvenance(es, s, t, OPERATION_CANCELED);
    } else {
      OthersKeepProvenance(es, s, RunCancel(s, t, at), t);
    }
  }

  lemma FinishKeepsProvenance(es: seq<Event>, s: State, t: Tid, at: FinishPc)
    requires Provenance(es, s) && PcOf(s, t) == Finishing(at)
    ensures Provenance(es, RunFinish(s, t, at))
  {
    hide Provenance, WonFor;
    OthersKeepProvenance(es, s, RunFinish(s, t, at), t);
  }

  lemma EndKeepsProvenance(es: seq<Event>, s: State, t: Tid)
    requires Provenance(es, s)
    ensures Provenance(es, RunEnd(s, t))
  {
    hide Provenance, WonFor;
    OthersKeepProvenance(es, s, RunEnd(s, t), t);
  }

  lemma GoKeepsProvenance(es: seq<Event>, s: State, t: Tid)
    requires Provenance(es, s)
    ensures Provenance(es, Run(s, t))
  {
    assert t in s.threads ==> Asked(es, t, s.threads[t]);
    hide Provenance, RunStart, RunCancel, RunFinish, RunEnd, ComContext.Completing;
    match PcOf(s, t)
    case Idle =>
    case Starting(at) => StartKeepsProvenance(es, s, t, at);
    case Cancelling(at) => CancelKeepsProvenance(es, s, t, at);
    case Trying(result) => TryKeepsProvenance(es, s, t, result);
    case Finishing(at) => FinishKeepsProvenance(es, s, t, at);
    case EndCall => EndKeepsProvenance(es, s, t);
  }

  lemma StepKeepsProvenance(es: seq<Event>, s: State, e: Event)
    requires Provenance(es, s) && e in es
    ensures Provenance(es, Step(s, e))
  {
    hide Provenance, WonFor, Run;
    match e
    case Begin(t, request) => if PcOf(s, t).Idle? && Step(s, e) != s { OthersKeepProvenance(es, s, Step(s, e), t); }
    case Go(t) => GoKeepsProvenance(es, s, t);
    case _ => OutsideKeepsProvenance(es, s, e);
  }

  lemma OutsideKeepsProvenance(es: seq<Event>, s: State, e: Event)
    requires Provenance(es, s) && (e.Look? || e.Expire?)
    ensures Provenance(es, Step(s, e))
  {
    hide Asked, WonFor;
  }

  lemma {:induction false} ExecKeepsProvenance(skip: bool, hasCallback: bool, es: seq<Event>, all: seq<Event>)
    requires forall e :: e in es ==> e in all
    ensures Provenance(all, Exec(Initial(skip, hasCallback), es))
    decreases |es|
  {
    hide Step;
    if es != [] {
      hide Provenance;
      ExecKeepsProvenance(skip, hasCallback, es[..|es| - 1], all);
      StepKeepsProvenance(all, Exec(Initial(skip, hasCallback), es[..|es| - 1]), es[|es| - 1]);
    }
  }

  /** The result that End hands out is the one that some TryComplete was called with, or the
      cancellation, of a Cancel that completes. */
  lemma EndGivesWhatWasAskedFor(skip: bool, hasCallback: bool, es: seq<Event>)
    ensures var s := Exec(Initial(skip, hasCallback), es);
            s.done.ended == 1 ==>
              s.ctx.view.life == Ended && s.done.owner.Some? && WonFor(es, s.done.owner.value, s.done.endResult, skip)
  {
    ExecKeepsProvenance(skip, hasCallback, es, es);
    EndedWithWinnersResult(skip, hasCallback, es);
    SkipIsConstant(skip, hasCallback, es);
    hide Exec, Initial, WonFor;
  }

  // ---------------------------------------------------------------- a Start that comes late

  /** Start has found, or is about to find, the context completing or cancelled, and
      cancels the root itself. */
  predicate TakesRoot(s: State, t: Tid) {
    var pc := PcOf(s, t);
    && s.hand.starter == Some(t)
    && (if pc.Starting? then
          match pc.start
          case CheckCompleting => Stage(s.ctx.view.life) >= 2 || s.ctx.view.cancelled
          case CheckCancelled => s.ctx.view.cancelled
          case Store(takes) => takes
          case StartUnlock(takes) => takes
          case CancelRoot => true
          case _ => false
        else s.hand.startTakes && s.hand.byStart == 1)
  }

  lemma ViewAdvances(call: Call, v: View)
    ensures Stage(v.life) <= Stage(Atomic(call, v).view.life) && (v.cancelled ==> Atomic(call, v).view.cancelled)
  {
  }

  /** A thread that is not in Start changes nothing that Start goes by. */
  predicate LeavesStart(s: State, s': State, u: Tid) {
    && s'.hand.starter == s.hand.starter && s'.hand.startTakes == s.hand.startTakes && s'.hand.byStart == s.hand.byStart
    && s'.threads == s.threads[u := PcOf(s', u)] && !PcOf(s', u).Starting?
    && Stage(s.ctx.view.life) <= Stage(s'.ctx.view.life) && (s.ctx.view.cancelled ==> s'.ctx.view.cancelled)
  }

  lemma LeftStillTakes(s: State, s': State, u: Tid, t: Tid)
    requires TakesRoot(s, t) && !PcOf(s, u).Starting? && LeavesStart(s, s', u)
    ensures TakesRoot(s', t)
  {
  }

  lemma CompletingLeavesStart(s: State, u: Tid, result: Value)
    ensures LeavesStart(s, ComContext.Completing(s, u, result), u)
  {
  }

  lemma CancelLeavesStart(s: State, u: Tid, at: CancelPc)
    ensures LeavesStart(s, RunCancel(s, u, at), u)
  {
    ViewAdvances(RequestCancel, s.ctx.view);
    hide ComContext.Completing, Atomic, Stage;
    if at.Decide? && !s.skip { CompletingLeavesStart(s, u, OPERATION_CANCELED); }
  }

  lemma FinishLeavesStart(s: State, u: Tid, at: FinishPc)
    ensures LeavesStart(s, RunFinish(s, u, at), u)
  {
    ViewAdvances(Complete, s.ctx.view);
    hide Atomic, Stage;
  }

  lemma EndLeavesStart(s: State, u: Tid)
    ensures LeavesStart(s, RunEnd(s, u), u)
  {
    ViewAdvances(Call.End, s.ctx.view);
    hide Atomic, Stage;
  }

  lemma OtherLeavesStart(s: State, u: Tid)
    requires !PcOf(s, u).Starting?
    ensures Run(s, u) == s || LeavesStart(s, Run(s, u), u)
  {
    hide RunStart, RunCancel, RunFinish, RunEnd, ComContext.Completing, Stage, LeavesStart;
    match PcOf(s, u)
    case Cancelling(at) => CancelLeavesStart(s, u, at);
    case Finishing(at) => FinishLeavesStart(s, u, at);
    case EndCall => EndLeavesStart(s, u);
    case Trying(result) => CompletingLeavesStart(s, u, result);
    case Idle =>
  }

  lemma OwnStartTakes(s: State, t: Tid, at: StartPc)
    requires TakesRoot(s, t) && PcOf(s, t) == Starting(at) && s.hand.byStart == 0 && (at.CancelRoot? || at.StartUnlock? ==> s.hand.startTakes)
    ensures TakesRoot(RunStart(s, t, at), t)
  {
  }

  lemma StartKnows(s: State, t: Tid)
    requires TakesRoot(s, t) && HandInv(s) && PcOf(s, t).Starting?
    ensures s.hand.byStart == 0 && (PcOf(s, t).start.CancelRoot? || PcOf(s, t).start.StartUnlock? ==> s.hand.startTakes)
  {
    hide CancelFacts, ThreadFacts, Shared;
  }

  lemma OwnStillTakes(s: State, t: Tid)
    requires TakesRoot(s, t) && HandInv(s) && PcOf(s, t).Starting?
    ensures TakesRoot(Run(s, t), t)
  {
    StartKnows(s, t);
    hide HandInv, TakesRoot, RunStart, RunCancel, RunFinish, RunEnd, ComContext.Completing;
    OwnStartTakes(s, t, PcOf(s, t).start);
  }

  lemma StepStillTakes(s: State, e: Event, t: Tid)
    requires TakesRoot(s, t) && HandInv(s)
    ensures TakesRoot(Step(s, e), t)
  {
    match e {
      case Go(u) =>
        assert s.hand.starter == Some(t);
        if u != t { StarterIsOnly(s, u, t); }
        hide Run, TakesRoot, HandInv;
        if PcOf(s, u).Starting? {
          OwnStillTakes(s, t);
        } else {
          OtherLeavesStart(s, u);
          if Run(s, u) != s { LeftStillTakes(s, Run(s, u), u, t); }
        }
      case Look =>
        ViewAdvances(Observe, s.ctx.view);
        hide Run, HandInv, Atomic;
      case _ => hide Run, HandInv;
    }
  }

  lemma StarterIsOnly(s: State, u: Tid, t: Tid)
    requires HandInv(s) && s.hand.starter == Some(t) && u != t
    ensures !PcOf(s, u).Starting?
  {
    if u in s.threads { assert ThreadFacts(u, s.threads[u], s.ctx.lock, s.done.owner, s.hand); }
  }

  /** A Start whose critical section finds the context completing or cancelled cancels the
      root, once, whatever happens meanwhile. */
  lemma {:induction false} LateStartCancelsRoot(skip: bool, hasCallback: bool, es: seq<Event>, more: seq<Event>, t: Tid)
    requires var s := Exec(Initial(skip, hasCallback), es);
             PcOf(s, t) == Starting(CheckCompleting) && s.hand.starter == Some(t) && (Stage(s.ctx.view.life) >= 2 || s.ctx.view.cancelled)
    ensures var s := Exec(Initial(skip, hasCallback), es + more);
            TakesRoot(s, t) && (!PcOf(s, t).Starting? ==> s.hand.startTakes && s.hand.byStart == 1)
    decreases |more|
  {
    hide Step, HandInv, DoneInv;
    if more == [] {
      assert es + more == es;
    } else {
      var before := es + more[..|more| - 1];
      assert (es + more)[..|es + more| - 1] == before;
      LateStartCancelsRoot(skip, hasCallback, es, more[..|more| - 1], t);
      ExecKeepsInv(skip, hasCallback, before);
      hide Exec;
      StepStillTakes(Exec(Initial(skip, hasCallback), before), more[|more| - 1], t);
      assert Exec(Initial(skip, hasCallback), es + more) == Step(Exec(Initial(skip, hasCallback), before), more[|more| - 1]) by {
        LastStep(Initial(skip, hasCallback), es + more);
      }
    }
  }

  lemma LastStep(s: State, es: seq<Event>)
    requires es != []
    ensures Exec(s, es) == Step(Exec(s, es[..|es| - 1]), es[|es| - 1])
  {
    hide Step;
  }

  // ---------------------------------------------------------------- one call alone

  function Alone(s: State, t: Tid, n: nat): State
    decreases n
  {
    if n == 0 then s else Alone(Run(s, t), t, n - 1)
  }

  lemma {:induction false} AloneGoesOn(s: State, t: Tid, n: nat, m: nat)
    ensures Alone(Alone(s, t, n), t, m) == Alone(s, t, n + m)
    decreases n
  {
    hide Run;
    if n > 0 { AloneGoesOn(Run(s, t), t, n - 1, m); }
  }

  /** A thread alone comes from here to there. */
  ghost predicate Leads(s: State, t: Tid, s': State) {
    exists n: nat :: Alone(s, t, n) == s'
  }

  lemma LeadsOn(s: State, t: Tid, s': State, s'': State)
    requires Leads(s, t, s') && Leads(s', t, s'')
    ensures Leads(s, t, s'')
  {
    hide Run, Alone;
    var n: nat :| Alone(s, t, n) == s';
    var m: nat :| Alone(s', t, m) == s'';
    AloneGoesOn(s, t, n, m);
  }

  lemma OneStep(s: State, t: Tid)
    ensures Leads(s, t, Run(s, t)) && Leads(s, t, s)
  {
    hide Run;
    assert Alone(s, t, 0) == s;
    assert Alone(s, t, 1) == Alone(Run(s, t), t, 0);
  }

  /** s, but for what a thread changes. */
  function Mid(s: State, t: Tid, pc: Pc, ctx: Context, done: Done, hand: Handshake): State {
    s.(threads := s.threads[t := pc], ctx := ctx, done := done, hand := hand)
  }

  /** One more step, from where the thread has come to. */
  lemma Goes(x: State, s: State, t: Tid, pc: Pc, ctx: Context, done: Done, hand: Handshake, pc': Pc, ctx': Context, done': Done, hand': Handshake)
    requires Leads(x, t, Mid(s, t, pc, ctx, done, hand))
    requires Run(Mid(s, t, pc, ctx, done, hand), t) == Mid(Mid(s, t, pc, ctx, done, hand), t, pc', ctx', done', hand')
    ensures Leads(x, t, Mid(s, t, pc', ctx', done', hand'))
  {
    var y := Mid(s, t, pc, ctx, done, hand);
    OneStep(y, t);
    assert y.threads[t := pc'] == s.threads[t := pc'];
    hide Run, Leads;
    LeadsOn(x, t, y, Mid(s, t, pc', ctx', done', hand'));
  }

  /** Nobody is inside, and t may begin. */
  ghost predicate Free(s: State, t: Tid) {
    HandInv(s) && DoneInv(s) && s.ctx.lock.None? && PcOf(s, t).Idle?
  }

  lemma BeginsAt(s: State, t: Tid, request: Request, pc: Pc, hand: Handshake)
    requires PcOf(s, t).Idle? && Step(s, Begin(t, request)) == Mid(s, t, pc, s.ctx, s.done, hand)
    ensures Leads(Step(s, Begin(t, request)), t, Mid(s, t, pc, s.ctx, s.done, hand))
  {
    OneStep(Step(s, Begin(t, request)), t);
  }

  /** What Start comes to: the context is started, and the root is stored for a later
      Cancel, or cancelled at once if there was one before. */
  lemma StartAlone(s: State, t: Tid)
    requires Free(s, t) && s.hand.starter.None?
    ensures var takes := s.ctx.view.cancelled;
            Leads(Step(s, Begin(t, Request.Start)), t,
                  Mid(s, t, Idle, s.ctx.(view := s.ctx.view.(life := Started), child := !takes), s.done,
                      s.hand.(starter := Some(t), startRan := true, startTakes := takes,
                              byStart := s.hand.byStart + (if takes then 1 else 0))))
  {
    var x := Step(s, Begin(t, Request.Start));
    var hand := s.hand.(starter := Some(t));
    var ctx := s.ctx.(view := s.ctx.view.(life := Started));
    assert s.ctx.view.life == Life.Created && ctx.lock.None?;
    hide RunCancel, RunFinish, RunEnd;
    hide Leads, HandInv, DoneInv, ComContext.Completing;
    BeginsAt(s, t, Request.Start, Starting(Transition), hand);
    Goes(x, s, t, Starting(Transition), s.ctx, s.done, hand, Starting(OnStart), ctx, s.done, hand);
    Goes(x, s, t, Starting(OnStart), ctx, s.done, hand, Starting(StartLock), ctx, s.done, hand);
    Goes(x, s, t, Starting(StartLock), ctx, s.done, hand, Starting(CheckCompleting), ctx.(lock := Some(t)), s.done, hand);
    StoresAlone(x, s, t, ctx, hand);
  }

  lemma StoresAlone(x: State, s: State, t: Tid, ctx: Context, hand: Handshake)
    requires ctx.view.life == Started && ctx.lock.None?
    requires Leads(x, t, Mid(s, t, Starting(CheckCompleting), ctx.(lock := Some(t)), s.done, hand))
    ensures var takes := ctx.view.cancelled;
            Leads(x, t, Mid(s, t, Idle, ctx.(child := !takes), s.done,
                            hand.(startRan := true, startTakes := takes, byStart := hand.byStart + (if takes then 1 else 0))))
  {
    var takes := ctx.view.cancelled;
    var held := ctx.(lock := Some(t));
    var hand2 := hand.(startRan := true, startTakes := takes);
    var ctx2 := ctx.(child := !takes);
    hide RunCancel, RunFinish, RunEnd;
    hide Leads, ComContext.Completing;
    Goes(x, s, t, Starting(CheckCompleting), held, s.done, hand, Starting(CheckCancelled), held, s.done, hand);
    Goes(x, s, t, Starting(CheckCancelled), held, s.done, hand, Starting(Store(takes)), held, s.done, hand);
    Goes(x, s, t, Starting(Store(takes)), held, s.done, hand, Starting(StartUnlock(takes)), held.(child := !takes), s.done, hand2);
    assert held.(child := !takes) == ctx.(lock := Some(t), child := !takes);
    hide Run;
    ReleasesAlone(x, s, t, ctx, hand2);
  }

  lemma ReleasesAlone(x: State, s: State, t: Tid, ctx: Context, hand: Handshake)
    requires ctx.lock.None?
    requires var takes := ctx.view.cancelled;
             Leads(x, t, Mid(s, t, Starting(StartUnlock(takes)), ctx.(lock := Some(t), child := !takes), s.done, hand))
    ensures var takes := ctx.view.cancelled;
            Leads(x, t, Mid(s, t, Idle, ctx.(child := !takes), s.done, hand.(byStart := hand.byStart + if takes then 1 else 0)))
  {
    var takes := ctx.view.cancelled;
    var held, ctx2 := ctx.(lock := Some(t), child := !takes), ctx.(child := !takes);
    hide RunCancel, RunFinish, RunEnd;
    hide Leads, ComContext.Completing;
    Goes(x, s, t, Starting(StartUnlock(takes)), held, s.done, hand, if takes then Starting(CancelRoot) else Idle, ctx2, s.done, hand);
    if takes {
      Goes(x, s, t, Starting(CancelRoot), ctx2, s.done, hand, Idle, ctx2, s.done, hand.(byStart := hand.byStart + 1));
    } else {
      assert hand.(byStart := hand.byStart + 0) == hand;
    }
  }

  // ---------------------------------------------------------------- completion, alone

  function Called(ctx: Context, result: Value, done: Done): Done {
    if ctx.callback then done.(invoked := done.invoked + 1, invokedAt := Life.Completed) else done
  }

  /** What a completion leaves of a context. */
  function Over(ctx: Context, result: Value): Context {
    Context(ctx.view.(life := Life.Completed), result, false, None, false)
  }

  function Won(t: Tid, ctx: Context, result: Value, done: Done): Done {
    Called(ctx, result, done.(wins := done.wins + 1, winner := Some(result), owner := Some(t)))
  }

  lemma FinishesAlone(x: State, s: State, t: Tid, ctx: Context, result: Value, done: Done, hand: Handshake)
    requires ctx.view.life == Life.Completing && ctx.lock.None?
    requires Leads(x, t, Mid(s, t, Finishing(SetResult(result)), ctx, done, hand))
    ensures Leads(x, t, Mid(s, t, Idle, Over(ctx, result), Called(ctx, result, done), hand.(cleaned := true)))
  {
    var ctx1 := ctx.(result := result);
    var ctx2 := ctx1.(view := ctx.view.(life := Life.Completed));
    var done2 := Called(ctx, result, done);
    hide RunStart, RunCancel, RunEnd;
    hide Leads, ComContext.Completing;
    Goes(x, s, t, Finishing(SetResult(result)), ctx, done, hand, Finishing(Publish), ctx1, done, hand);
    Goes(x, s, t, Finishing(Publish), ctx1, done, hand, Finishing(Invoke), ctx2, done, hand);
    Goes(x, s, t, Finishing(Invoke), ctx2, done, hand, Finishing(DropCallback), ctx2, done2, hand);
    CleansAlone(x, s, t, ctx2, done2, hand);
  }

  lemma CleansAlone(x: State, s: State, t: Tid, ctx: Context, done: Done, hand: Handshake)
    requires ctx.lock.None? && Leads(x, t, Mid(s, t, Finishing(DropCallback), ctx, done, hand))
    ensures Leads(x, t, Mid(s, t, Idle, ctx.(callback := false, child := false), done, hand.(cleaned := true)))
  {
    var ctx3 := ctx.(callback := false);
    var held := ctx3.(lock := Some(t));
    hide RunStart, RunCancel, RunEnd;
    hide Leads, ComContext.Completing;
    Goes(x, s, t, Finishing(DropCallback), ctx, done, hand, Finishing(CleanLock), ctx3, done, hand);
    Goes(x, s, t, Finishing(CleanLock), ctx3, done, hand, Finishing(ResetChild), held, done, hand);
    Goes(x, s, t, Finishing(ResetChild), held, done, hand, Finishing(CleanUnlock), held.(child := false), done, hand.(cleaned := true));
    Goes(x, s, t, Finishing(CleanUnlock), held.(child := false), done, hand.(cleaned := true),
         Idle, ctx3.(child := false), done, hand.(cleaned := true));
  }

  /** What the surroundings may do at any time: look at a started context, which fixes the
      verdict while it has not completed, and let the root go once Start has stored it. */
  lemma OthersAct(s: State)
    ensures s.ctx.view.life in {Started, Life.Completing} ==> Step(s, Look).ctx.view == s.ctx.view.(observed := true)
    ensures s.ctx.view.life in {Life.Completed, Ended} ==> Step(s, Look) == s
    ensures s.hand.startRan ==> Step(s, Expire).expired
  {
  }

  /** Where an attempt to complete leads, from where the thread is about to make it. */
  function Tried(s: State, t: Tid, ctx: Context, result: Value, done: Done, hand: Handshake): State {
    if ctx.view.life == Started then Mid(s, t, Idle, Over(ctx, result), Won(t, ctx, result, done), hand.(cleaned := true))
    else Mid(s, t, Idle, ctx, done, hand)
  }

  lemma TriesAlone(x: State, s: State, t: Tid, pc: Pc, ctx: Context, result: Value, done: Done, hand: Handshake)
    requires pc == Trying(result) || (pc == Cancelling(Decide) && !s.skip && result == OPERATION_CANCELED)
    requires ctx.lock.None? && Leads(x, t, Mid(s, t, pc, ctx, done, hand))
    ensures Leads(x, t, Tried(s, t, ctx, result, done, hand))
  {
    hide RunStart, RunFinish, RunEnd;
    hide Leads;
    if ctx.view.life == Started {
      var claimed := ctx.(view := ctx.view.(life := Life.Completing));
      var done1 := done.(wins := done.wins + 1, winner := Some(result), owner := Some(t));
      Goes(x, s, t, pc, ctx, done, hand, Finishing(SetResult(result)), claimed, done1, hand);
      hide Run;
      FinishesAlone(x, s, t, claimed, result, done1, hand);
      assert Over(claimed, result) == Over(ctx, result) && Called(claimed, result, done1) == Won(t, ctx, result, done);
    } else {
      Goes(x, s, t, pc, ctx, done, hand, Idle, ctx, done, hand);
    }
  }

  /** What TryStartComplete and FinishComplete come to: a started context is completed with
      the given result, and its callback invoked; any other is left alone. */
  lemma TryCompleteAlone(s: State, t: Tid, result: Value)
    requires Free(s, t)
    ensures Leads(Step(s, Begin(t, TryComplete(result))), t, Tried(s, t, s.ctx, result, s.done, s.hand))
  {
    var x := Step(s, Begin(t, TryComplete(result)));
    BeginsAt(s, t, TryComplete(result), Trying(result), s.hand);
    hide Leads, Step, HandInv, DoneInv, Tried;
    TriesAlone(x, s, t, Trying(result), s.ctx, result, s.done, s.hand);
  }

  /** What End comes to: a completed context is ended and its result handed out; from any
      other End gets nothing. */
  lemma EndAlone(s: State, t: Tid)
    requires Free(s, t)
    ensures Leads(Step(s, Begin(t, Request.End)), t,
                  if s.ctx.view.life == Life.Completed then
                    Mid(s, t, Idle, s.ctx.(view := s.ctx.view.(life := Ended)), s.done.(ended := s.done.ended + 1, endResult := s.ctx.result), s.hand)
                  else Mid(s, t, Idle, s.ctx, s.done, s.hand))
  {
    var x := Step(s, Begin(t, Request.End));
    hide RunStart, RunCancel, RunFinish;
    hide Leads, HandInv, DoneInv;
    BeginsAt(s, t, Request.End, EndCall, s.hand);
    if s.ctx.view.life == Life.Completed {
      Goes(x, s, t, EndCall, s.ctx, s.done, s.hand, Idle, s.ctx.(view := s.ctx.view.(life := Ended)),
           s.done.(ended := s.done.ended + 1, endResult := s.ctx.result), s.hand);
    } else {
      Goes(x, s, t, EndCall, s.ctx, s.done, s.hand, Idle, s.ctx, s.done, s.hand);
    }
  }

  /** What Cancel comes to: nothing, if the context was cancelled before. Otherwise the root
      is cancelled if Start has stored it and it is alive, and then a started context is
      completed, unless cancel is only a signal. */
  lemma CancelAlone(s: State, t: Tid)
    requires Free(s, t)
    ensures var ctx := s.ctx.(view := s.ctx.view.(cancelled := true));
            var found := s.ctx.child && !s.expired;
            var hand := s.hand.(canceller := Some(t), cancelRan := true, cancelTakes := found, cleanedFirst := s.hand.cleaned,
                                expiredFirst := s.expired, byCancel := s.hand.byCancel + if found then 1 else 0);
            Leads(Step(s, Begin(t, Request.Cancel)), t,
                  if s.ctx.view.cancelled then Mid(s, t, Idle, s.ctx, s.done, s.hand)
                  else if s.skip then Mid(s, t, Idle, ctx, s.done, hand)
                  else Tried(s, t, ctx, OPERATION_CANCELED, s.done, hand))
  {
    var x := Step(s, Begin(t, Request.Cancel));
    hide Leads, HandInv, DoneInv, Tried, ComContext.Completing;
    BeginsAt(s, t, Request.Cancel, Cancelling(Mark), s.hand);
    if s.ctx.view.cancelled {
      Goes(x, s, t, Cancelling(Mark), s.ctx, s.done, s.hand, Idle, s.ctx, s.done, s.hand);
    } else {
      var ctx := s.ctx.(view := s.ctx.view.(cancelled := true));
      Goes(x, s, t, Cancelling(Mark), s.ctx, s.done, s.hand, Cancelling(CancelLock), ctx, s.done, s.hand.(canceller := Some(t)));
      ReadsAlone(x, s, t, ctx, s.hand.(canceller := Some(t)));
    }
  }

  lemma ReadsAlone(x: State, s: State, t: Tid, ctx: Context, hand: Handshake)
    requires ctx.lock.None? && Leads(x, t, Mid(s, t, Cancelling(CancelLock), ctx, s.done, hand))
    ensures var found := ctx.child && !s.expired;
            var hand2 := hand.(cancelRan := true, cancelTakes := found, cleanedFirst := hand.cleaned,
                               expiredFirst := s.expired, byCancel := hand.byCancel + if found then 1 else 0);
            Leads(x, t, if s.skip then Mid(s, t, Idle, ctx, s.done, hand2) else Tried(s, t, ctx, OPERATION_CANCELED, s.done, hand2))
  {
    var found := ctx.child && !s.expired;
    var held := ctx.(lock := Some(t));
    var hand1 := hand.(cancelRan := true, cancelTakes := found, cleanedFirst := hand.cleaned, expiredFirst := s.expired);
    hide RunStart, RunFinish, RunEnd;
    hide Leads, Tried, ComContext.Completing;
    Goes(x, s, t, Cancelling(CancelLock), ctx, s.done, hand, Cancelling(ReadChild), held, s.done, hand);
    Goes(x, s, t, Cancelling(ReadChild), held, s.done, hand, Cancelling(CancelUnlock(found)), held, s.done, hand1);
    hide Run;
    FoundAlone(x, s, t, ctx, found, hand1);
  }

  lemma FoundAlone(x: State, s: State, t: Tid, ctx: Context, found: bool, hand: Handshake)
    requires ctx.lock.None? && Leads(x, t, Mid(s, t, Cancelling(CancelUnlock(found)), ctx.(lock := Some(t)), s.done, hand))
    ensures var hand2 := hand.(byCancel := hand.byCancel + if found then 1 else 0);
            Leads(x, t, if s.skip then Mid(s, t, Idle, ctx, s.done, hand2) else Tried(s, t, ctx, OPERATION_CANCELED, s.done, hand2))
  {
    hide RunStart, RunFinish, RunEnd;
    hide Leads, Tried, ComContext.Completing;
    Goes(x, s, t, Cancelling(CancelUnlock(found)), ctx.(lock := Some(t)), s.done, hand,
         if found then Cancelling(CancelChild) else Cancelling(Decide), ctx, s.done, hand);
    hide Run;
    CallsAlone(x, s, t, ctx, found, hand);
  }

  lemma CallsAlone(x: State, s: State, t: Tid, ctx: Context, found: bool, hand: Handshake)
    requires ctx.lock.None? && Leads(x, t, Mid(s, t, if found then Cancelling(CancelChild) else Cancelling(Decide), ctx, s.done, hand))
    ensures var hand2 := hand.(byCancel := hand.byCancel + if found then 1 else 0);
            Leads(x, t, if s.skip then Mid(s, t, Idle, ctx, s.done, hand2) else Tried(s, t, ctx, OPERATION_CANCELED, s.done, hand2))
  {
    var hand2 := hand.(byCancel := hand.byCancel + if found then 1 else 0);
    hide RunStart, RunFinish, RunEnd;
    hide Leads, Tried, ComContext.Completing;
    if found {
      Goes(x, s, t, Cancelling(CancelChild), ctx, s.done, hand, Cancelling(Decide), ctx, s.done, hand2);
    } else {
      assert hand2 == hand;
    }
    if s.skip {
      Goes(x, s, t, Cancelling(Decide), ctx, s.done, hand2, Idle, ctx, s.done, hand2);
    } else {
      TriesAlone(x, s, t, Cancelling(Decide), ctx, OPERATION_CANCELED, s.done, hand2);
    }
  }
}
