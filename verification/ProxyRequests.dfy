/** What Begin replies, what the partner serves and what a Cancel asks for is what becomes of
    the native operation of ComProxy: where its error comes from, and that a cancel which
    finds the context stored reaches that context. */
module ProxyRequests {
  import opened Threads
  import opened LifecycleWord
  import opened ErrorCodes
  import opened ComProxy

  // ---------------------------------------------------------------- where an error comes from

  /** What OnStart completes with when Begin gives no context. */
  function ReplyError(reply: Reply): Value {
    if reply.Failed? then reply.error else INVALID_ARGUMENT
  }

  /** The error of a role that does not carry the context's result. */
  predicate ErrorOf(role: Role, error: Value, reply: Option<Reply>) {
    match role
    case Failing => reply.Some? && error == ReplyError(reply.value)
    case Nulling => error == INVALID_ARGUMENT
    case Canceller => error == OPERATION_CANCELED
    case _ => true
  }

  predicate PcAsked(es: seq<Event>, t: Tid, pc: Pc, w: World) {
    var reply := w.begun.reply;
    match pc
    case Serving(result) => Begin(t, Serve(result)) in es
    case Try(role, error) => ErrorOf(role, error, reply)
    case Finish(role, error) => ErrorOf(role, error, reply)
    case Cancelling(Mark(force)) => force ==> Begin(t, Request.Cancel(true)) in es
    case Cancelling(Choose(force)) => force ==> Begin(t, Request.Cancel(true)) in es
    case Cancelling(ClaimContext(_)) => !w.contextSkip
    case _ => true
  }

  /** The partner was asked to complete with this result, or the proxy cancelled it. */
  predicate ServedBy(es: seq<Event>, t: Tid, result: Value, contextSkip: bool) {
    Begin(t, Serve(result)) in es || (result == OPERATION_CANCELED && !contextSkip)
  }

  predicate NativeAsked(es: seq<Event>, n: Native, reply: Option<Reply>) {
    && (n.marker.Some? && n.force ==> Begin(n.marker.value, Request.Cancel(true)) in es)
    && (n.how.Some? && Stage(n.view.life) >= 3 ==> ErrorOf(n.how.value, n.error, reply))
  }

  predicate ReplyAsked(es: seq<Event>, reply: Option<Reply>) {
    reply.Some? ==> Answers(reply.value) in es && (reply.value.Failed? ==> reply.value.error < 0)
  }

  predicate PartnerAsked(es: seq<Event>, p: Partner, contextSkip: bool) {
    && (p.winner.Some? <==> p.owner.Some?)
    && (p.owner.Some? ==> ServedBy(es, p.owner.value, p.winner.value, contextSkip))
  }

  predicate WorldAsked(es: seq<Event>, w: World) {
    NativeAsked(es, w.native, w.begun.reply) && ReplyAsked(es, w.begun.reply) && PartnerAsked(es, w.partner, w.contextSkip)
  }

  ghost predicate Provenance(es: seq<Event>, s: State) {
    WorldAsked(es, s.world) && forall t: Tid :: PcAsked(es, t, PcOf(s, t), s.world)
  }

  /** A step of thread t that may be taken. */
  predicate StepAsked(es: seq<Event>, w: World, t: Tid, a: After) {
    && WorldAsked(es, a.world) && PcAsked(es, t, a.pc, a.world) && a.world.contextSkip == w.contextSkip
    && (a.world.begun.reply == w.begun.reply || w.begun.reply.None?)
  }

  lemma StepKeeps(es: seq<Event>, s: State, t: Tid, a: After)
    requires Provenance(es, s) && StepAsked(es, s.world, t, a)
    ensures Provenance(es, Moved(s, t, a)) && Moved(s, t, a).world.contextSkip == s.world.contextSkip
  {
    hide WorldAsked;
    forall u: Tid ensures PcAsked(es, u, PcOf(Moved(s, t, a), u), a.world) {
      if u != t { assert PcAsked(es, u, PcOf(s, u), s.world); }
    }
  }

  lemma ClaimAsked(es: seq<Event>, w: World, t: Tid, role: Role, onWin: Pc, onLoss: Pc)
    requires WorldAsked(es, w) && PcAsked(es, t, onWin, w) && PcAsked(es, t, onLoss, w)
    ensures StepAsked(es, w, t, ClaimNative(w, t, role, onWin, onLoss))
  {
    hide PartnerAsked, ReplyAsked, ErrorOf;
    if w.native.view.life == Started { ClaimedWorld(es, w, t, role); }
  }

  lemma ClaimedWorld(es: seq<Event>, w: World, t: Tid, role: Role)
    requires WorldAsked(es, w) && w.native.view.life == Started
    ensures forall v: View :: v.life == Life.Completing ==>
              WorldAsked(es, w.(native := w.native.(view := v, claimer := Some(t), how := Some(role))))
  {
  }

  lemma ClaimContextAsked(es: seq<Event>, w: World, t: Tid, result: Value, resume: Option<bool>, onLoss: Pc)
    requires WorldAsked(es, w) && ServedBy(es, t, result, w.contextSkip) && PcAsked(es, t, onLoss, w)
    ensures StepAsked(es, w, t, ClaimContextWord(w, t, result, resume, onLoss))
  {
    hide NativeAsked, ReplyAsked, ServedBy;
  }

  lemma LetGoAsked(es: seq<Event>, w: World, t: Tid, local: bool, remote: bool, next: Pc)
    requires WorldAsked(es, w) && PcAsked(es, t, next, w)
    ensures StepAsked(es, w, t, LetGo(w, t, local, remote, next))
  {
    hide NativeAsked, ReplyAsked, PartnerAsked;
  }

  lemma StartAsked(es: seq<Event>, w: World, t: Tid, at: StartPc)
    requires WorldAsked(es, w)
    ensures StepAsked(es, w, t, RunStart(w, t, at))
  {
    hide WorldAsked, LetGo;
    if at.Release? { LetGoAsked(es, w, t, false, w.callback.remote, Idle); } else { SameAsked(es, w, RunStart(w, t, at).world); }
  }

  /** Nothing that matters here has changed. */
  lemma SameAsked(es: seq<Event>, w: World, w': World)
    requires WorldAsked(es, w) && w'.contextSkip == w.contextSkip && w'.begun.reply == w.begun.reply
    requires w'.partner.owner == w.partner.owner && w'.partner.winner == w.partner.winner
    requires w'.native.marker == w.native.marker && w'.native.force == w.native.force
    requires w'.native.how == w.native.how && w'.native.error == w.native.error
    requires Stage(w'.native.view.life) >= 3 ==> Stage(w.native.view.life) >= 3
    ensures WorldAsked(es, w')
  {
    hide ErrorOf, ServedBy, ReplyAsked;
  }

  lemma EndAsked(es: seq<Event>, w: World, t: Tid, role: Role)
    requires WorldAsked(es, w) && (role.Starter? || role.Completer?)
    ensures StepAsked(es, w, t, RunEnd(w, role))
  {
    hide WorldAsked;
    SameAsked(es, w, RunEnd(w, role).world);
  }

  lemma PublishAsked(es: seq<Event>, w: World, t: Tid, resume: Option<bool>)
    requires WorldAsked(es, w)
    ensures StepAsked(es, w, t, RunPublish(w, resume)) && StepAsked(es, w, t, RunVerdict(w, resume))
  {
    hide WorldAsked;
    SameAsked(es, w, RunPublish(w, resume).world);
    SameAsked(es, w, RunVerdict(w, resume).world);
  }

  lemma FinishAsked(es: seq<Event>, w: World, t: Tid, role: Role, error: Value)
    requires WorldAsked(es, w) && ErrorOf(role, error, w.begun.reply) && w.native.how == Some(role)
    ensures StepAsked(es, w, t, RunFinish(w, role, error))
  {
    hide PartnerAsked, ReplyAsked, ErrorOf;
  }

  lemma CancelAsked(es: seq<Event>, w: World, t: Tid, at: CancelPc)
    requires WorldAsked(es, w) && PcAsked(es, t, Cancelling(at), w)
    ensures StepAsked(es, w, t, RunCancel(w, t, at))
  {
    hide WorldAsked, ClaimNative, ClaimContextWord;
    match at
    case Mark(force) => MarkAsked(es, w, t, force);
    case Choose(force) => if force || !w.skip { ClaimAsked(es, w, t, Canceller, Cancelling(ReadStored(true)), Idle); }
    case ReadStored(claimed) =>
    case MarkContext(claimed) => SameAsked(es, w, RunCancel(w, t, at).world);
    case ClaimContext(claimed) => ClaimContextAsked(es, w, t, OPERATION_CANCELED, Some(claimed), Resumed(Some(claimed)));
  }

  lemma MarkAsked(es: seq<Event>, w: World, t: Tid, force: bool)
    requires WorldAsked(es, w) && PcAsked(es, t, Cancelling(Mark(force)), w)
    ensures StepAsked(es, w, t, RunCancel(w, t, Mark(force)))
  {
    hide PartnerAsked, ReplyAsked, ErrorOf;
  }

  lemma RunAsked(es: seq<Event>, w: World, t: Tid, pc: Pc)
    requires WorldAsked(es, w) && PcAsked(es, t, pc, w) && Facts(t, pc, w)
    ensures StepAsked(es, w, t, Run(w, t, pc))
  {
    RolesFit(w, t, pc);
    hide WorldAsked, Facts, LetGo, ClaimNative, ClaimContextWord, RunStart, RunEnd, RunVerdict, RunFinish, RunPublish, RunCancel, StepAsked;
    match pc
    case Idle => StaysAsked(es, w, t, pc);
    case Starting(at) => StartAsked(es, w, t, at);
    case Serving(result) => ClaimContextAsked(es, w, t, result, None, Idle);
    case SetResult(result, resume) => SmallAsked(es, w, t, pc);
    case Publish(resume) => PublishAsked(es, w, t, resume);
    case Invoke(resume) => SmallAsked(es, w, t, pc);
    case AskVerdict(resume) => PublishAsked(es, w, t, resume);
    case DropCallback(resume) => DropAsked(es, w, t, resume);
    case EndCom(role) => EndAsked(es, w, t, role);
    case Try(role, error) => TryAsked(es, w, t, role, error);
    case Finish(role, error) => FinishAsked(es, w, t, role, error);
    case CleanUp(role) => SmallAsked(es, w, t, pc);
    case NullDone => LetGoAsked(es, w, t, w.callback.local, false, Idle);
    case Cancelling(at) => CancelAsked(es, w, t, at);
  }

  lemma RolesFit(w: World, t: Tid, pc: Pc)
    requires Facts(t, pc, w)
    ensures pc.EndCom? ==> pc.role.Starter? || pc.role.Completer?
    ensures pc.Finish? ==> w.native.how == Some(pc.role)
  {
    hide StarterFacts, CompleterFacts, CancelFacts, NullFacts;
  }

  lemma StaysAsked(es: seq<Event>, w: World, t: Tid, pc: Pc)
    requires WorldAsked(es, w) && PcAsked(es, t, pc, w)
    ensures StepAsked(es, w, t, After(w, pc))
  {
    hide WorldAsked, PcAsked;
  }

  lemma SmallAsked(es: seq<Event>, w: World, t: Tid, pc: Pc)
    requires WorldAsked(es, w) && (pc.SetResult? || pc.Invoke? || pc.CleanUp?)
    ensures StepAsked(es, w, t, Run(w, t, pc))
  {
    hide WorldAsked;
    SameAsked(es, w, Run(w, t, pc).world);
  }

  lemma ResumedAsked(es: seq<Event>, w: World, t: Tid, resume: Option<bool>)
    ensures PcAsked(es, t, Resumed(resume), w)
  {
  }

  lemma DropAsked(es: seq<Event>, w: World, t: Tid, resume: Option<bool>)
    requires WorldAsked(es, w)
    ensures StepAsked(es, w, t, Run(w, t, DropCallback(resume)))
  {
    hide WorldAsked, LetGo, StepAsked, PcAsked;
    ResumedAsked(es, w, t, resume);
    if w.callback.remote { LetGoAsked(es, w, t, w.callback.local, false, Resumed(resume)); } else { StaysAsked(es, w, t, Resumed(resume)); }
  }

  lemma TryAsked(es: seq<Event>, w: World, t: Tid, role: Role, error: Value)
    requires WorldAsked(es, w) && PcAsked(es, t, Try(role, error), w)
    ensures StepAsked(es, w, t, Run(w, t, Try(role, error)))
  {
    assert PcAsked(es, t, Finish(role, error), w) && PcAsked(es, t, ReturnPc(role), w);
    hide WorldAsked, PcAsked, ClaimNative, StepAsked;
    ClaimAsked(es, w, t, role, Finish(role, error), ReturnPc(role));
  }

  lemma EnterAsked(es: seq<Event>, w: World, t: Tid, request: Request)
    requires WorldAsked(es, w) && Begin(t, request) in es
    ensures StepAsked(es, w, t, Enter(w, t, request))
  {
    hide WorldAsked, LetGo;
    match request
    case Start => SameAsked(es, w, Enter(w, t, request).world);
    case InvokeNull => SameAsked(es, w, Enter(w, t, request).world);
    case Drop => LetGoAsked(es, w, t, w.callback.local, false, Idle);
    case _ =>
  }

  lemma RepliesAsked(es: seq<Event>, w: World, t: Tid, reply: Reply)
    requires WorldAsked(es, w) && Answers(reply) in es && w.begun.reply.None? && (w.native.how.Some? ==> !w.native.how.value.Failing?)
    ensures StepAsked(es, w, t, Replies(w, reply))
  {
    hide PartnerAsked;
  }

  lemma AwaitingReply(s: State)
    requires Inv(s) && InBeginCall(s)
    ensures s.world.begun.reply.None? && (s.world.native.how.Some? ==> !s.world.native.how.value.Failing?)
  {
    assert Facts(s.world.begun.tid.value, PcOf(s, s.world.begun.tid.value), s.world);
    hide CompleterFacts, NativeFacts, CarryFacts, CancelFacts, NullFacts, VerdictFacts, CallbackFacts, PartnerFacts;
  }

  lemma StepKeepsProvenance(es: seq<Event>, s: State, e: Event)
    requires Provenance(es, s) && Inv(s) && e in es
    ensures Provenance(es, Step(s, e)) && Step(s, e).world.contextSkip == s.world.contextSkip
  {
    hide WorldAsked, StepAsked, PcAsked, Global, Facts, Run, Enter, Begins, Replies, Looked, EndedNative;
    match e
    case Begin(t, request) =>
      if PcOf(s, t).Idle? {
        EnterAsked(es, s.world, t, request);
        StepKeeps(es, s, t, Enter(s.world, t, request));
      }
    case Go(t) =>
      RunAsked(es, s.world, t, PcOf(s, t));
      StepKeeps(es, s, t, Run(s.world, t, PcOf(s, t)));
    case MakeContext =>
      if InBeginCall(s) {
        BeginsAsked(es, s.world, s.world.begun.tid.value);
        StepKeeps(es, s, s.world.begun.tid.value, Begins(s.world));
      }
    case Answers(reply) =>
      if InBeginCall(s) {
        AwaitingReply(s);
        RepliesAsked(es, s.world, s.world.begun.tid.value, reply);
        StepKeeps(es, s, s.world.begun.tid.value, Replies(s.world, reply));
      }
    case _ => EnvironmentAsked(es, s, e);
  }

  lemma BeginsAsked(es: seq<Event>, w: World, t: Tid)
    requires WorldAsked(es, w)
    ensures StepAsked(es, w, t, Begins(w))
  {
    hide WorldAsked;
    SameAsked(es, w, Begins(w).world);
  }

  lemma EnvironmentAsked(es: seq<Event>, s: State, e: Event)
    requires Provenance(es, s) && (e.Look? || e.EndNative?)
    ensures Provenance(es, Step(s, e)) && Step(s, e).world.contextSkip == s.world.contextSkip
  {
    hide WorldAsked;
    SameAsked(es, s.world, Step(s, e).world);
    forall u: Tid ensures PcAsked(es, u, PcOf(Step(s, e), u), Step(s, e).world) {
      assert PcAsked(es, u, PcOf(s, u), s.world);
    }
  }

  lemma {:induction false} ExecKeepsProvenance(skip: bool, contextSkip: bool, es: seq<Event>, all: seq<Event>)
    requires forall e :: e in es ==> e in all
    ensures Provenance(all, Exec(Initial(skip, contextSkip), es)) && Exec(Initial(skip, contextSkip), es).world.contextSkip == contextSkip
    decreases |es|
  {
    hide Step, Inv;
    if es != [] {
      var before := es[..|es| - 1];
      hide Provenance;
      ExecKeepsProvenance(skip, contextSkip, before, all);
      ComProxy.ExecKeepsInv(skip, contextSkip, before);
      StepKeepsProvenance(all, Exec(Initial(skip, contextSkip), before), es[|es| - 1]);
    }
  }

  /** Where the result of the context comes from. */
  predicate ResultAsked(es: seq<Event>, owner: Option<Tid>, result: Option<Value>, contextSkip: bool) {
    owner.Some? && result.Some? && ServedBy(es, owner.value, result.value, contextSkip)
  }

  /** What a completed native operation has for an error: what Begin replied when it failed
      or gave no context; the invalid argument when the callback was given none; the
      cancellation, of a Cancel that completes; and otherwise the result that the
      partner was asked to complete its context with, or the context's cancellation. */
  ghost predicate ErrorAsked(es: seq<Event>, w: World) {
    && w.native.how.Some?
    && match w.native.how.value
       case Failing => exists reply :: Answers(reply) in es && !reply.Context? && w.native.error == ReplyError(reply)
       case Nulling => w.native.error == INVALID_ARGUMENT
       case Canceller => w.native.error == OPERATION_CANCELED && (w.skip ==> exists t :: Begin(t, Request.Cancel(true)) in es)
       case _ => Carried(w.partner.winner, w.native.error) && ResultAsked(es, w.partner.owner, w.partner.winner, w.contextSkip)
  }

  lemma ErrorWasAskedFor(skip: bool, contextSkip: bool, es: seq<Event>)
    ensures var w := Exec(Initial(skip, contextSkip), es).world;
            w.native.view.life in {Completed, Ended} ==> ErrorAsked(es, w)
  {
    var s := Exec(Initial(skip, contextSkip), es);
    ExecKeepsProvenance(skip, contextSkip, es, es);
    ComProxy.ExecKeepsInv(skip, contextSkip, es);
    hide Exec, Initial, Facts, PcAsked;
    WorldExplains(es, s.world);
  }

  lemma WorldExplains(es: seq<Event>, w: World)
    requires WorldAsked(es, w) && Global(w)
    ensures w.native.view.life in {Completed, Ended} ==> ErrorAsked(es, w)
  {
    hide VerdictFacts, CallbackFacts;
  }

  // ---------------------------------------------------------------- a context that a cancel finds

  /** t has read the stored context and is going to cancel it, or it is cancelled. */
  predicate CancelsContext(s: State, t: Tid, claimed: bool) {
    PcOf(s, t) == Cancelling(MarkContext(claimed)) || s.world.partner.view.cancelled
  }

  predicate Cancelled(w: World) {
    w.partner.view.cancelled
  }

  lemma AtomicKeepsCancelled(call: Call, v: View)
    requires v.cancelled
    ensures Atomic(call, v).view.cancelled
  {
  }

  lemma StartKeepsCancelled(w: World, t: Tid, at: StartPc)
    requires Cancelled(w)
    ensures Cancelled(RunStart(w, t, at).world)
  {
    AtomicKeepsCancelled(Observe, w.partner.view);
  }

  lemma CancelKeepsCancelled(w: World, t: Tid, at: CancelPc)
    requires Cancelled(w) || at.MarkContext?
    ensures Cancelled(RunCancel(w, t, at).world)
  {
    if Cancelled(w) {
      AtomicKeepsCancelled(BeginComplete, w.partner.view);
      AtomicKeepsCancelled(RequestCancel, w.partner.view);
    }
  }

  lemma RunKeepsCancelled(w: World, t: Tid, pc: Pc)
    requires Cancelled(w) || (pc.Cancelling? && pc.cancel.MarkContext?)
    ensures Cancelled(Run(w, t, pc).world)
  {
    if Cancelled(w) {
      AtomicKeepsCancelled(BeginComplete, w.partner.view);
      AtomicKeepsCancelled(Complete, w.partner.view);
      AtomicKeepsCancelled(Observe, w.partner.view);
      AtomicKeepsCancelled(End, w.partner.view);
    }
    hide Atomic, RunStart, RunCancel;
    match pc
    case Starting(at) => StartKeepsCancelled(w, t, at);
    case Cancelling(at) => CancelKeepsCancelled(w, t, at);
    case _ =>
  }

  lemma EnterKeepsCancelled(w: World, t: Tid, request: Request)
    requires Cancelled(w)
    ensures Cancelled(Enter(w, t, request).world)
  {
  }

  lemma OutsideKeepsCancelled(s: State, e: Event)
    requires Cancelled(s.world) && (e.MakeContext? || e.Answers? || e.Look? || e.EndNative?)
    ensures Cancelled(Step(s, e).world)
  {
    hide Enter, Run;
  }

  lemma StepKeepsCancelled(s: State, e: Event)
    requires Cancelled(s.world)
    ensures Cancelled(Step(s, e).world)
  {
    hide Run, Enter, Begins, Replies, Looked, EndedNative, Cancelled;
    match e
    case Begin(t, request) => EnterKeepsCancelled(s.world, t, request);
    case Go(t) => RunKeepsCancelled(s.world, t, PcOf(s, t));
    case _ => OutsideKeepsCancelled(s, e);
  }

  lemma StepCancelsContext(s: State, e: Event, t: Tid, claimed: bool)
    requires CancelsContext(s, t, claimed)
    ensures CancelsContext(Step(s, e), t, claimed)
  {
    hide Run, Enter, Begins, Replies, Looked, EndedNative;
    if Cancelled(s.world) { StepKeepsCancelled(s, e); }
    else if e == Go(t) { RunKeepsCancelled(s.world, t, PcOf(s, t)); }
  }

  lemma {:induction false} RunCancelsContext(s: State, es: seq<Event>, t: Tid, claimed: bool)
    requires CancelsContext(s, t, claimed)
    ensures CancelsContext(Exec(s, es), t, claimed)
  {
    hide Step, CancelsContext;
    if es != [] {
      RunCancelsContext(s, es[..|es| - 1], t, claimed);
      StepCancelsContext(Exec(s, es[..|es| - 1]), es[|es| - 1], t, claimed);
    }
  }

  predicate AtContext(pc: Pc) {
    pc.Cancelling? && (pc.cancel.MarkContext? || pc.cancel.ClaimContext?)
  }

  predicate AtClaim(pc: Pc) {
    pc.Cancelling? && pc.cancel.ClaimContext?
  }

  /** A cancelled context completes, unless cancel is only a signal to it: it has begun to, or
      the thread that made the mark is about to claim the completion. */
  ghost predicate Bound(s: State) {
    && (forall u: Tid :: AtContext(PcOf(s, u)) ==> s.world.partner.view.life != Life.Created)
    && (s.world.partner.view.cancelled && !s.world.contextSkip ==>
          Stage(s.world.partner.view.life) >= 2 || exists u: Tid :: AtClaim(PcOf(s, u)))
  }

  /** What the step of one thread has to do with that. */
  predicate Binds(w: World, pc: Pc, a: After) {
    && a.world.contextSkip == w.contextSkip
    && Stage(w.partner.view.life) <= Stage(a.world.partner.view.life)
    && (AtContext(a.pc) ==> a.world.partner.view.life != Life.Created)
    && (a.world.partner.view.cancelled && !w.contextSkip ==>
          Stage(a.world.partner.view.life) >= 2 || AtClaim(a.pc) || (w.partner.view.cancelled && !AtClaim(pc)))
  }

  lemma StepKeepsBinding(s: State, t: Tid, a: After)
    requires Bound(s) && Binds(s.world, PcOf(s, t), a)
    ensures Bound(Moved(s, t, a))
  {
    var s' := Moved(s, t, a);
    if a.world.partner.view.cancelled && !s.world.contextSkip && Stage(a.world.partner.view.life) < 2 {
      if AtClaim(a.pc) {
        assert AtClaim(PcOf(s', t));
      } else {
        var u: Tid :| AtClaim(PcOf(s, u));
        assert AtClaim(PcOf(s', u));
      }
    }
    forall u: Tid | AtContext(PcOf(s', u)) ensures a.world.partner.view.life != Life.Created {
      if u != t { assert AtContext(PcOf(s, u)); }
    }
  }

  lemma AtomicAdvances(call: Call, v: View)
    ensures Stage(v.life) <= Stage(Atomic(call, v).view.life)
    ensures call != RequestCancel ==> Atomic(call, v).view.cancelled == v.cancelled
  {
  }

  lemma StartBinds(w: World, t: Tid, at: StartPc)
    ensures Binds(w, Starting(at), RunStart(w, t, at))
  {
    AtomicAdvances(Observe, w.partner.view);
    hide Atomic;
  }

  lemma MarkBinds(w: World, t: Tid, at: CancelPc)
    requires at.Mark? || at.Choose? || at.ReadStored?
    requires w.native.stored ==> w.partner.view.life != Life.Created
    ensures Binds(w, Cancelling(at), RunCancel(w, t, at))
  {
    hide Atomic;
  }

  lemma MarkContextBinds(w: World, t: Tid, at: CancelPc)
    requires (at.MarkContext? || at.ClaimContext?) && w.partner.view.life != Life.Created
    ensures Binds(w, Cancelling(at), RunCancel(w, t, at))
  {
  }

  lemma FinishBinds(w: World, t: Tid, pc: Pc)
    requires pc.Publish? || pc.AskVerdict? || pc.EndCom? || pc.Finish? || pc.Try?
    ensures Binds(w, pc, Run(w, t, pc))
  {
    AtomicAdvances(Complete, w.partner.view);
    AtomicAdvances(Observe, w.partner.view);
    AtomicAdvances(End, w.partner.view);
    hide Atomic, RunStart, RunCancel;
  }

  lemma ServingBinds(w: World, t: Tid, result: Value)
    ensures Binds(w, Serving(result), Run(w, t, Serving(result)))
  {
  }

  lemma SmallBinds(w: World, t: Tid, pc: Pc)
    requires pc.Idle? || pc.SetResult? || pc.Invoke? || pc.DropCallback? || pc.CleanUp? || pc.NullDone?
    ensures Binds(w, pc, Run(w, t, pc))
  {
    hide Atomic, RunStart, RunCancel;
  }

  lemma RunBinds(w: World, t: Tid, pc: Pc)
    requires w.native.stored || AtContext(pc) ==> w.partner.view.life != Life.Created
    ensures Binds(w, pc, Run(w, t, pc))
  {
    hide RunStart, RunCancel, Binds, RunEnd, RunVerdict, RunFinish, RunPublish, LetGo, ClaimNative, ClaimContextWord;
    match pc
    case Starting(at) => StartBinds(w, t, at);
    case Cancelling(at) => if AtContext(pc) { MarkContextBinds(w, t, at); } else { MarkBinds(w, t, at); }
    case Serving(result) => ServingBinds(w, t, result);
    case Idle => SmallBinds(w, t, pc);
    case SetResult(_, _) => SmallBinds(w, t, pc);
    case Invoke(_) => SmallBinds(w, t, pc);
    case DropCallback(_) => SmallBinds(w, t, pc);
    case CleanUp(_) => SmallBinds(w, t, pc);
    case NullDone => SmallBinds(w, t, pc);
    case _ => FinishBinds(w, t, pc);
  }

  lemma EnterBinds(w: World, t: Tid, request: Request)
    ensures Binds(w, Idle, Enter(w, t, request))
  {
  }

  lemma RepliesBind(w: World, pc: Pc, reply: Reply)
    requires !AtClaim(pc)
    ensures Binds(w, pc, Replies(w, reply)) && Binds(w, pc, Begins(w))
  {
  }

  lemma StoredIsCreated(s: State)
    requires Inv(s) && s.world.native.stored
    ensures s.world.partner.view.life != Life.Created
  {
    hide Facts, VerdictFacts, CallbackFacts;
  }

  lemma LooksBind(s: State, e: Event)
    requires Bound(s) && (e.Look? || e.EndNative?)
    ensures Bound(Step(s, e))
  {
    AtomicAdvances(Observe, s.world.partner.view);
    hide Atomic, Enter, Run;
    forall u: Tid ensures PcOf(Step(s, e), u) == PcOf(s, u) { }
    if exists u: Tid :: AtClaim(PcOf(s, u)) {
      var u: Tid :| AtClaim(PcOf(s, u));
      assert AtClaim(PcOf(Step(s, e), u));
    }
  }

  lemma StepKeepsBound(s: State, e: Event)
    requires Inv(s) && Bound(s)
    ensures Bound(Step(s, e))
  {
    if s.world.native.stored { StoredIsCreated(s); }
    match e {
      case Begin(t, request) =>
        EnterBinds(s.world, t, request);
        hide Inv, Enter, Run, Binds, Bound;
        if PcOf(s, t).Idle? { StepKeepsBinding(s, t, Enter(s.world, t, request)); }
      case Go(t) =>
        assert AtContext(PcOf(s, t)) ==> s.world.partner.view.life != Life.Created;
        hide Inv, Enter, Run, Binds, Bound;
        RunBinds(s.world, t, PcOf(s, t));
        StepKeepsBinding(s, t, Run(s.world, t, PcOf(s, t)));
      case MakeContext =>
        if InBeginCall(s) {
          RepliesBind(s.world, PcOf(s, s.world.begun.tid.value), Context);
          hide Inv, Enter, Run, Binds, Bound, Begins;
          StepKeepsBinding(s, s.world.begun.tid.value, Begins(s.world));
        }
      case Answers(reply) =>
        if InBeginCall(s) {
          RepliesBind(s.world, PcOf(s, s.world.begun.tid.value), reply);
          hide Inv, Enter, Run, Binds, Bound, Replies;
          StepKeepsBinding(s, s.world.begun.tid.value, Replies(s.world, reply));
        }
      case _ => LooksBind(s, e);
    }
  }

  lemma {:induction false} ExecKeepsBound(skip: bool, contextSkip: bool, es: seq<Event>)
    ensures Bound(Exec(Initial(skip, contextSkip), es))
  {
    hide Step, Inv;
    if es != [] {
      hide Bound;
      ExecKeepsBound(skip, contextSkip, es[..|es| - 1]);
      ComProxy.ExecKeepsInv(skip, contextSkip, es[..|es| - 1]);
      StepKeepsBound(Exec(Initial(skip, contextSkip), es[..|es| - 1]), es[|es| - 1]);
    }
  }

  lemma {:induction false} RunsInTwo(s: State, es: seq<Event>, more: seq<Event>)
    ensures Exec(s, es + more) == Exec(Exec(s, es), more)
    decreases |more|
  {
    hide Step;
    if more == [] {
      assert es + more == es;
    } else {
      assert (es + more)[..|es + more| - 1] == es + more[..|more| - 1];
      RunsInTwo(s, es, more[..|more| - 1]);
    }
  }

  /** A cancel of the native operation that finds the context stored cancels that context:
      it is about to, or has done so, for ever after. And when everybody has returned, the
      context has completed, unless cancel is only a signal to it. */
  lemma FoundContextIsCancelled(skip: bool, contextSkip: bool, es: seq<Event>, t: Tid, claimed: bool, more: seq<Event>)
    requires var s := Exec(Initial(skip, contextSkip), es);
             PcOf(s, t) == Cancelling(ReadStored(claimed)) && s.world.native.stored
    ensures var s := Exec(Initial(skip, contextSkip), es + [Go(t)] + more);
            && CancelsContext(s, t, claimed)
            && (Quiet(s) ==> Cancelled(s.world) && (contextSkip || Stage(s.world.partner.view.life) >= 3))
  {
    var start := Initial(skip, contextSkip);
    var s := Exec(start, es);
    var s' := Exec(start, es + [Go(t)] + more);
    assert (es + [Go(t)])[..|es|] == es;
    assert Exec(start, es + [Go(t)]) == Step(s, Go(t));
    RunsInTwo(start, es + [Go(t)], more);
    RunCancelsContext(Step(s, Go(t)), more, t, claimed);
    ExecKeepsBound(skip, contextSkip, es + [Go(t)] + more);
    ComProxy.ExecKeepsInv(skip, contextSkip, es + [Go(t)] + more);
    ExecKeepsProvenance(skip, contextSkip, es + [Go(t)] + more, es + [Go(t)] + more);
    hide Exec, Initial, Inv, Step, Provenance;
    if Quiet(s') { QuietIsDone(s', t, claimed); }
  }

  lemma QuietIsDone(s: State, t: Tid, claimed: bool)
    requires Inv(s) && Bound(s) && Quiet(s) && CancelsContext(s, t, claimed)
    ensures Cancelled(s.world) && (s.world.contextSkip || Stage(s.world.partner.view.life) >= 3)
  {
    forall u: Tid ensures PcOf(s, u) == Idle { }
    if s.world.partner.owner.Some? { assert Facts(s.world.partner.owner.value, PcOf(s, s.world.partner.owner.value), s.world); }
    assert Global(s.world);
    hide Inv, VerdictFacts, CallbackFacts, StarterFacts, NativeFacts, CancelFacts, NullFacts, NativeWorld;
  }

  // ---------------------------------------------------------------- one call alone

  function Goes(s: State, t: Tid): State {
    Step(s, Go(t))
  }

  lemma MovedTo(s: State, t: Tid, a: After)
    ensures PcOf(Moved(s, t, a), t) == a.pc && Moved(s, t, a).world == a.world
  {
  }

  lemma RunsTo(s: State, t: Tid)
    ensures Goes(s, t).world == Run(s.world, t, PcOf(s, t)).world && PcOf(Goes(s, t), t) == Run(s.world, t, PcOf(s, t)).pc
  {
    hide Run;
    MovedTo(s, t, Run(s.world, t, PcOf(s, t)));
  }

  /** A Begin that fails, or that gives no context, leaves the native operation completed
      with what it replied, and the callback with the partner if it keeps it. */
  lemma BeginFails(s: State, t: Tid, reply: Reply)
    requires s.world.begun.tid == Some(t) && InBeginCall(s) && s.world.partner.view.life == Life.Created
    requires !reply.Context? && (reply.Failed? ==> reply.error < 0) && s.world.native.view.life == Started
    ensures var w := Goes(Goes(Step(s, Answers(reply)), t), t).world;
            && w.native.view == s.world.native.view.(life := Completed) && w.native.error == ReplyError(reply)
            && w.begun.reply == Some(reply) && w.callback == s.world.callback.(remote := reply.keeps) && w.partner == s.world.partner
  {
    var s1 := Step(s, Answers(reply));
    MovedTo(s, t, Replies(s.world, reply));
    assert s1.world == Replies(s.world, reply).world && PcOf(s1, t) == Try(Failing, ReplyError(reply));
    RunsTo(s1, t);
    hide Step, Goes, RunStart, RunCancel;
    FailingClaims(s1, t, ReplyError(reply));
    RunsTo(Goes(s1, t), t);
  }

  lemma FailingClaims(s: State, t: Tid, error: Value)
    requires PcOf(s, t) == Try(Failing, error) && s.world.native.view.life == Started
    ensures var a := Run(s.world, t, PcOf(s, t));
            && a.pc == Finish(Failing, error)
            && a.world == s.world.(native := s.world.native.(view := s.world.native.view.(life := Completing), claimer := Some(t), how := Some(Failing)))
  {
  }

  /** A partner that is asked to complete a started context does so, with that result. */
  lemma ServeCompletes(s: State, t: Tid, result: Value)
    requires PcOf(s, t).Idle? && s.world.partner.view.life == Started
    ensures var w := Goes(Goes(Goes(Step(s, Begin(t, Serve(result))), t), t), t).world;
            && w.partner.view == s.world.partner.view.(life := Completed) && w.partner.result == result
            && w.partner.owner == Some(t) && w.partner.winner == Some(result) && w.native == s.world.native
  {
    var s1 := Step(s, Begin(t, Serve(result)));
    MovedTo(s, t, Enter(s.world, t, Serve(result)));
    assert s1.world == s.world && PcOf(s1, t) == Serving(result);
    RunsTo(s1, t);
    ServingClaims(s1, t, result);
    hide Step, Goes, RunStart, RunCancel, ClaimContextWord;
    var s2 := Goes(s1, t);
    RunsTo(s2, t);
    RunsTo(Goes(s2, t), t);
  }

  lemma ServingClaims(s: State, t: Tid, result: Value)
    requires PcOf(s, t) == Serving(result) && s.world.partner.view.life == Started
    ensures var a := Run(s.world, t, PcOf(s, t));
            && a.pc == SetResult(result, None)
            && a.world == s.world.(partner := s.world.partner.(view := s.world.partner.view.(life := Completing), owner := Some(t), winner := Some(result)))
  {
  }

  /** A Cancel of a started native operation that nobody has cancelled claims its completion
      if it forces or if cancel completes, and otherwise only marks it; and goes on to
      see whether a context is stored. */
  lemma CancelClaimsNative(s: State, t: Tid, force: bool)
    requires PcOf(s, t).Idle? && s.world.native.view.life == Started && !s.world.native.view.cancelled
    ensures var s' := Goes(Goes(Step(s, Begin(t, Request.Cancel(force))), t), t);
            var claims := force || !s.world.skip;
            && s'.world.native.view.cancelled && PcOf(s', t) == Cancelling(ReadStored(claims))
            && s'.world.native.view.life == (if claims then Completing else Started)
            && s'.world.native.how == (if claims then Some(Canceller) else s.world.native.how)
            && s'.world.native.marker == Some(t) && s'.world.native.force == force && s'.world.native.stored == s.world.native.stored
  {
    var s1 := Step(s, Begin(t, Request.Cancel(force)));
    MovedTo(s, t, Enter(s.world, t, Request.Cancel(force)));
    assert s1.world == s.world && PcOf(s1, t) == Cancelling(Mark(force));
    RunsTo(s1, t);
    hide Step, Goes, RunStart;
    RunsTo(Goes(s1, t), t);
  }

  /** And without a context it comes to an end there: with the cancellation if it claimed. */
  lemma CancelEndsWithoutContext(s: State, t: Tid, claimed: bool)
    requires PcOf(s, t) == Cancelling(ReadStored(claimed)) && !s.world.native.stored && (claimed ==> s.world.native.view.life == Completing)
    ensures var s1 := Goes(s, t);
            if claimed then
              && PcOf(Goes(s1, t), t).Idle? && Goes(s1, t).world.native.view.life == Completed
              && Goes(s1, t).world.native.error == OPERATION_CANCELED
            else PcOf(s1, t).Idle? && s1.world == s.world
  {
    RunsTo(s, t);
    hide Step, Goes, RunStart;
    RunsTo(Goes(s, t), t);
  }
}
