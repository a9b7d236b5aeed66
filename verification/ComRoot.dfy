/** A ComAsyncOperationContext together with its proxy root. The handshake of
    ComContext decides who cancels the root; that call then runs on the root, which is
    never started and sweeps its children as in OperationRaces, while other threads
    attach and detach children. */
module ComRoot {
  import opened Threads
  import opened LifecycleWord
  import opened ErrorCodes
  import C = ComContext
  import R = OperationRaces

  /** `calls` are the threads inside the call of Cancel on the root. */
  datatype State = State(context: C.State, root: R.State, calls: set<Tid>)

  /** What may happen to either, and the next statement of a thread in whichever of
      the two it is in. */
  datatype Event =
    | Begin(tid: Tid, request: C.Request)
    | Look
    | Expire
    | Relist(tid: Tid, change: R.Request)
    | ChildExpires(child: R.Child)
    | Go(tid: Tid)

  function Initial(skip: bool, hasCallback: bool): State {
    State(C.Initial(skip, hasCallback), R.Initial(false, false), {})
  }

  predicate CallsRoot(pc: C.Pc) {
    (pc.Starting? && pc.start.CancelRoot?) || (pc.Cancelling? && pc.cancel.CancelChild?)
  }

  /** Start forces the root to complete, Cancel does not. */
  function RootCall(pc: C.Pc): R.Request {
    R.Request.Cancel(pc.Starting?)
  }

  /** Nobody holds the root: each child that hangs from it has gone, and none is being
      attached or detached. */
  predicate Unreferenced(root: R.State) {
    root.family.owed <= root.expired && forall t :: t in root.threads ==> !root.threads[t].Listing?
  }

  function OnContext(s: State, e: C.Event): State {
    s.(context := C.Step(s.context, e))
  }

  function OnRoot(s: State, e: R.Event): State {
    s.(root := R.Step(s.root, e))
  }

  function Run(s: State, t: Tid): State {
    var pc := C.PcOf(s.context, t);
    if t in s.calls then
      if R.PcOf(s.root, t).Idle? then OnContext(s, C.Go(t)).(calls := s.calls - {t}) else OnRoot(s, R.Go(t))
    else if CallsRoot(pc) then OnRoot(s, R.Begin(t, RootCall(pc))).(calls := s.calls + {t})
    else if R.PcOf(s.root, t).Idle? then OnContext(s, C.Go(t))
    else OnRoot(s, R.Go(t))
  }

  /** Whoever attaches or detaches a child holds the root. */
  predicate MayRelist(s: State, t: Tid, change: R.Request) {
    (change.Attach? || change.Detach?) && C.PcOf(s.context, t).Idle? && !s.context.expired
  }

  /** A thread is in one of the two at a time, but for the calls; a callback that calls
      back is one more thread. */
  function Step(s: State, e: Event): State {
    match e
    case Begin(t, request) => if R.PcOf(s.root, t).Idle? then OnContext(s, C.Begin(t, request)) else s
    case Look => OnContext(s, C.Look)
    case Expire => if Unreferenced(s.root) then OnContext(s, C.Expire) else s
    case Relist(t, change) => if MayRelist(s, t, change) then OnRoot(s, R.Begin(t, change)) else s
    case ChildExpires(child) => OnRoot(s, R.Expire(child))
    case Go(t) => Run(s, t)
  }

  function Exec(s: State, es: seq<Event>): State {
    if es == [] then s else Step(Exec(s, es[..|es| - 1]), es[|es| - 1])
  }

  // ---------------------------------------------------------------- both machines run on their own

  lemma Grows(c: C.State, es: seq<C.Event>, more: seq<C.Event>)
    requires |more| <= 1
    ensures C.Exec(c, es + more) == if more == [] then C.Exec(c, es) else C.Step(C.Exec(c, es), more[0])
  {
    hide C.Step;
    if more == [] { assert es + more == es; } else { assert (es + more)[..|es|] == es; }
  }

  lemma RootGrows(r: R.State, es: seq<R.Event>, more: seq<R.Event>)
    requires |more| <= 1 && R.NeverStarted(es) && R.NeverStarted(more)
    ensures R.Exec(r, es + more) == if more == [] then R.Exec(r, es) else R.Step(R.Exec(r, es), more[0])
    ensures R.NeverStarted(es + more)
  {
    hide R.Step;
    if more == [] { assert es + more == es; } else { assert (es + more)[..|es|] == es; }
  }

  /** What each event comes down to on either side. */
  lemma Sides(s: State, e: Event) returns (ces: seq<C.Event>, res: seq<R.Event>)
    ensures |ces| <= 1 && |res| <= 1 && R.NeverStarted(res)
    ensures Step(s, e).context == if ces == [] then s.context else C.Step(s.context, ces[0])
    ensures Step(s, e).root == if res == [] then s.root else R.Step(s.root, res[0])
  {
    hide C.Step, R.Step, C.PcOf, R.PcOf;
    ces, res := [], [];
    match e {
      case Begin(t, request) => if R.PcOf(s.root, t).Idle? { ces := [C.Begin(t, request)]; }
      case Look => ces := [C.Look];
      case Expire => if Unreferenced(s.root) { ces := [C.Expire]; }
      case Relist(t, change) => if MayRelist(s, t, change) { res := [R.Begin(t, change)]; }
      case ChildExpires(child) => res := [R.Expire(child)];
      case Go(t) =>
        var pc := C.PcOf(s.context, t);
        if t !in s.calls && CallsRoot(pc) { res := [R.Begin(t, RootCall(pc))]; }
        else if R.PcOf(s.root, t).Idle? { ces := [C.Go(t)]; }
        else { res := [R.Go(t)]; }
    }
  }

  /** A run of the two together is a run of each. */
  lemma {:induction false} Projects(skip: bool, hasCallback: bool, es: seq<Event>) returns (ces: seq<C.Event>, res: seq<R.Event>)
    ensures R.NeverStarted(res)
    ensures Exec(Initial(skip, hasCallback), es).context == C.Exec(C.Initial(skip, hasCallback), ces)
    ensures Exec(Initial(skip, hasCallback), es).root == R.Exec(R.Initial(false, false), res)
  {
    hide Step, C.Step, R.Step, R.NeverStarted;
    if es == [] {
      ces, res := [], [];
      assert R.NeverStarted(res) by { NothingStarts(); }
    } else {
      hide C.Exec, R.Exec, Initial, C.Initial, R.Initial;
      ces, res := Projects(skip, hasCallback, es[..|es| - 1]);
      var c, r := Sides(Exec(Initial(skip, hasCallback), es[..|es| - 1]), es[|es| - 1]);
      Grows(C.Initial(skip, hasCallback), ces, c);
      RootGrows(R.Initial(false, false), res, r);
      ces, res := ces + c, res + r;
    }
  }

  lemma NothingStarts()
    ensures R.NeverStarted([])
  {
  }

  ghost predicate SidesInv(s: State) {
    C.HandInv(s.context) && C.DoneInv(s.context) && R.ChildInv(s.root) && R.CompletionInv(s.root) && s.root.op.view.life == Created
  }

  lemma SidesAreSound(skip: bool, hasCallback: bool, es: seq<Event>)
    ensures SidesInv(Exec(Initial(skip, hasCallback), es)) && !Exec(Initial(skip, hasCallback), es).root.skip
  {
    var ces, res := Projects(skip, hasCallback, es);
    hide C.HandInv, C.DoneInv, R.ChildInv, R.CompletionInv;
    hide C.Exec, R.Exec, Exec, C.Initial, R.Initial, Initial;
    C.ExecKeepsInv(skip, hasCallback, ces);
    R.ExecKeepsInv(false, false, res);
    R.RootStaysCreated(false, false, res);
  }

  // ---------------------------------------------------------------- the call on the root

  /** The thread that has taken on the cancellation of the root. */
  function Caller(h: C.Handshake): Option<Tid> {
    if h.startRan && h.startTakes then h.starter else if h.cancelTakes then h.canceller else None
  }

  function Made(h: C.Handshake): nat {
    h.byStart + h.byCancel
  }

  lemma AtCall(c: C.State, t: Tid)
    requires C.HandInv(c) && CallsRoot(C.PcOf(c, t))
    ensures Caller(c.hand) == Some(t) && Made(c.hand) == 0
  {
    assert C.ThreadFacts(t, c.threads[t], c.ctx.lock, c.done.owner, c.hand);
  }

  /** What a step of the context leaves alone. */
  predicate Steady(c: C.State, c': C.State) {
    && (Caller(c.hand).Some? ==> Caller(c'.hand) == Caller(c.hand))
    && (c'.hand.expiredFirst && !c.hand.expiredFirst ==> c.expired)
  }

  predicate Goes(c: C.State, c': C.State, t: Tid) {
    && Steady(c, c') && c'.expired == c.expired && c'.threads == c.threads[t := C.PcOf(c', t)]
    && Made(c'.hand) == Made(c.hand) + if CallsRoot(C.PcOf(c, t)) then 1 else 0
  }

  lemma StartGoes(c: C.State, t: Tid, at: C.StartPc)
    requires C.HandInv(c) && C.PcOf(c, t) == C.Starting(at)
    ensures Goes(c, C.RunStart(c, t, at), t)
  {
    assert C.ThreadFacts(t, c.threads[t], c.ctx.lock, c.done.owner, c.hand);
    hide C.CancelFacts;
  }

  lemma CancelGoes(c: C.State, t: Tid, at: C.CancelPc)
    requires C.HandInv(c) && C.PcOf(c, t) == C.Cancelling(at)
    ensures Goes(c, C.RunCancel(c, t, at), t)
  {
    hide C.HandInv, C.RunCancel, C.Completing, Goes;
    match at
    case ReadChild => ReadGoes(c, t);
    case Decide => if c.skip { SkipGoes(c, t); } else { C.DecideCompletes(c, t); CompletingGoes(c, t, OPERATION_CANCELED); }
    case _ => MarkGoes(c, t, at);
  }

  lemma SkipGoes(c: C.State, t: Tid)
    requires C.PcOf(c, t) == C.Cancelling(C.Decide) && c.skip
    ensures Goes(c, C.RunCancel(c, t, C.Decide), t)
  {
    hide C.Completing;
  }

  lemma ReadGoes(c: C.State, t: Tid)
    requires C.HandInv(c) && C.PcOf(c, t) == C.Cancelling(C.ReadChild)
    ensures Goes(c, C.RunCancel(c, t, C.ReadChild), t)
  {
    assert C.ThreadFacts(t, c.threads[t], c.ctx.lock, c.done.owner, c.hand);
    hide C.StartFacts;
  }

  lemma MarkGoes(c: C.State, t: Tid, at: C.CancelPc)
    requires C.HandInv(c) && C.PcOf(c, t) == C.Cancelling(at) && !at.ReadChild? && !at.Decide?
    ensures Goes(c, C.RunCancel(c, t, at), t)
  {
    hide C.StartFacts, C.ThreadFacts, C.CancelFacts;
  }

  lemma ContextGoes(c: C.State, t: Tid)
    requires C.HandInv(c)
    ensures C.PcOf(c, t).Idle? ==> C.Run(c, t) == c
    ensures C.Run(c, t) == c || Goes(c, C.Run(c, t), t)
  {
    hide C.HandInv, C.RunStart, C.RunCancel, C.RunFinish, C.RunEnd, C.Completing, Goes;
    match C.PcOf(c, t)
    case Starting(at) => StartGoes(c, t, at);
    case Cancelling(at) => CancelGoes(c, t, at);
    case Finishing(at) => FinishGoes(c, t, at);
    case EndCall => EndGoes(c, t);
    case Trying(result) => CompletingGoes(c, t, result);
    case Idle =>
  }

  lemma CompletingGoes(c: C.State, t: Tid, result: Value)
    requires !CallsRoot(C.PcOf(c, t))
    ensures Goes(c, C.Completing(c, t, result), t)
  {
  }

  lemma FinishGoes(c: C.State, t: Tid, at: C.FinishPc)
    requires C.PcOf(c, t) == C.Finishing(at)
    ensures Goes(c, C.RunFinish(c, t, at), t)
  {
  }

  lemma EndGoes(c: C.State, t: Tid)
    requires C.PcOf(c, t).EndCall?
    ensures Goes(c, C.RunEnd(c, t), t)
  {
  }

  // ---------------------------------------------------------------- how the two fit together

  predicate RootPc(t: Tid, pc: R.Pc, calls: set<Tid>, context: C.Pc) {
    pc.Idle? || (pc.Listing? && t !in calls && context.Idle?) || (pc.Cancelling? && t in calls)
  }

  predicate CallPc(t: Tid, pc: R.Pc, sweeper: Option<Tid>) {
    if pc.Cancelling? && pc.cancel.Marking? then sweeper.None? else sweeper == Some(t)
  }

  /** The first Cancel of the root is the caller's, and a call that is over has run it. */
  predicate SweptByCaller(h: C.Handshake, sweeper: Option<Tid>, calls: set<Tid>) {
    && (sweeper.Some? ==> Caller(h) == sweeper && (sweeper.value in calls || Made(h) >= 1))
    && (Made(h) >= 1 ==> sweeper.Some?)
  }

  predicate Expiry(c: C.State, root: R.State) {
    (c.hand.expiredFirst ==> c.expired) && (c.expired ==> Unreferenced(root))
  }

  ghost predicate Match(s: State) {
    && (forall t :: t in s.calls ==> CallsRoot(C.PcOf(s.context, t)) && CallPc(t, R.PcOf(s.root, t), s.root.family.sweeper))
    && (forall t :: t in s.root.threads ==> RootPc(t, s.root.threads[t], s.calls, C.PcOf(s.context, t)))
    && SweptByCaller(s.context.hand, s.root.family.sweeper, s.calls) && Expiry(s.context, s.root)
  }

  lemma OneCaller(s: State, t: Tid, u: Tid)
    requires C.HandInv(s.context) && CallsRoot(C.PcOf(s.context, t)) && CallsRoot(C.PcOf(s.context, u))
    ensures t == u
  {
    AtCall(s.context, t);
    AtCall(s.context, u);
  }

  lemma ContextStepMatches(s: State, t: Tid)
    requires Match(s) && C.HandInv(s.context) && t !in s.calls && !CallsRoot(C.PcOf(s.context, t)) && R.PcOf(s.root, t).Idle?
    ensures Match(OnContext(s, C.Go(t)))
  {
    hide C.HandInv, C.Run, Caller, CallPc, CallsRoot, Unreferenced;
    ContextGoes(s.context, t);
  }

  /** The call has returned. */
  lemma ReturnMatches(s: State, t: Tid)
    requires Match(s) && C.HandInv(s.context) && t in s.calls && R.PcOf(s.root, t).Idle?
    ensures Match(OnContext(s, C.Go(t)).(calls := s.calls - {t}))
  {
    assert C.Run(s.context, t) != s.context;
    hide C.HandInv, C.Run, Caller, CallsRoot, Unreferenced;
    ContextGoes(s.context, t);
  }

  lemma CallMatches(s: State, t: Tid)
    requires Match(s) && C.HandInv(s.context) && t !in s.calls && CallsRoot(C.PcOf(s.context, t))
    ensures Match(OnRoot(s, R.Begin(t, RootCall(C.PcOf(s.context, t)))).(calls := s.calls + {t}))
  {
    AtCall(s.context, t);
    assert R.PcOf(s.root, t).Idle?;
    forall u | u in s.calls ensures false { OneCaller(s, t, u); }
    hide C.HandInv, Caller, Made;
  }

  lemma RootCancels(r: R.State, t: Tid, force: bool, at: R.CancelPc)
    requires R.ChildInv(r) && !r.skip && r.op.view.life == Created && R.PcOf(r, t) == R.Cancelling(force, at)
    requires at.Marking? ==> r.family.sweeper.None?
    ensures var r' := R.RunCancel(r, t, force, at);
            && r'.threads == r.threads[t := R.PcOf(r', t)] && r'.expired == r.expired && r'.family.owed == r.family.owed
            && (R.PcOf(r', t).Idle? || (R.PcOf(r', t).Cancelling? && !R.PcOf(r', t).cancel.Marking?))
            && r'.family.sweeper == if at.Marking? then Some(t) else r.family.sweeper
  {
    hide R.SweepFacts, R.ThreadFacts, R.Covered;
  }

  /** The root after a step of the caller t. */
  predicate CallGoes(r: R.State, r': R.State, t: Tid) {
    && r'.threads == r.threads[t := R.PcOf(r', t)] && r'.expired == r.expired && r'.family.owed == r.family.owed
    && (R.PcOf(r', t).Idle? || (R.PcOf(r', t).Cancelling? && !R.PcOf(r', t).cancel.Marking?))
    && r'.family.sweeper == Some(t)
  }

  lemma CallStays(s: State, r': R.State, t: Tid)
    requires Match(s) && s.calls == {t} && R.PcOf(s.root, t).Cancelling? && Caller(s.context.hand) == Some(t)
    requires CallGoes(s.root, r', t)
    ensures Match(s.(root := r'))
  {
    hide Caller, Made, CallsRoot;
  }

  lemma RootCallMatches(s: State, t: Tid)
    requires Match(s) && SidesInv(s) && !s.root.skip && t in s.calls && !R.PcOf(s.root, t).Idle?
    ensures Match(OnRoot(s, R.Go(t)))
  {
    var pc := R.PcOf(s.root, t);
    assert pc.Cancelling? && CallPc(t, pc, s.root.family.sweeper);
    AtCall(s.context, t);
    forall u | u in s.calls ensures u == t { OneCaller(s, t, u); }
    hide Match, C.HandInv, C.DoneInv, R.ChildInv, R.CompletionInv, R.RunCancel, Caller, Made, CallsRoot;
    RootCancels(s.root, t, pc.force, pc.cancel);
    RootRuns(s.root, t, pc.force, pc.cancel);
    if R.Run(s.root, t) != s.root { CallStays(s, R.Run(s.root, t), t); }
  }

  lemma RootRuns(r: R.State, t: Tid, force: bool, at: R.CancelPc)
    requires R.PcOf(r, t) == R.Cancelling(force, at)
    ensures R.Run(r, t) == if at.SweepLock? && r.kids.lock.Some? then r else R.RunCancel(r, t, force, at)
  {
    hide R.RunCancel;
  }

  lemma RootLists(r: R.State, t: Tid, child: R.Child, at: R.ListPc)
    requires R.PcOf(r, t) == R.Listing(child, at)
    ensures var r' := R.RunList(r, t, child, at);
            && r'.threads == r.threads[t := R.PcOf(r', t)] && (R.PcOf(r', t).Idle? || R.PcOf(r', t).Listing?)
            && r'.family.sweeper == r.family.sweeper
  {
    hide R.Without;
  }

  lemma RootListMatches(s: State, t: Tid)
    requires Match(s) && t !in s.calls && !R.PcOf(s.root, t).Idle?
    ensures Match(OnRoot(s, R.Go(t)))
  {
    var pc := R.PcOf(s.root, t);
    assert pc.Listing? && !s.context.expired;
    RootLists(s.root, t, pc.child, pc.list);
    hide R.RunList, Caller, Made, CallPc, CallsRoot;
  }

  lemma ContextBegins(c: C.State, t: Tid, request: C.Request)
    requires C.HandInv(c)
    ensures var c' := C.Step(c, C.Begin(t, request));
            && c'.expired == c.expired && Caller(c'.hand) == Caller(c.hand) && Made(c'.hand) == Made(c.hand)
            && c'.hand.expiredFirst == c.hand.expiredFirst
            && (c' == c || (C.PcOf(c, t).Idle? && c'.threads == c.threads[t := C.PcOf(c', t)]))
  {
    assert C.Shared(c.ctx.view, c.ctx.child, c.expired, c.hand);
    hide C.HandInv, C.Run;
  }

  lemma BeginMatches(s: State, t: Tid, request: C.Request)
    requires Match(s) && C.HandInv(s.context) && R.PcOf(s.root, t).Idle?
    ensures Match(OnContext(s, C.Begin(t, request)))
  {
    hide C.Step, C.HandInv, Caller, Made, Unreferenced, CallPc;
    ContextBegins(s.context, t, request);
  }

  lemma ListMatches(s: State, t: Tid, change: R.Request)
    requires Match(s) && MayRelist(s, t, change)
    ensures Match(OnRoot(s, R.Begin(t, change)))
  {
    hide Caller, Made;
  }

  lemma StepKeepsMatch(s: State, e: Event)
    requires Match(s) && SidesInv(s) && !s.root.skip
    ensures Match(Step(s, e))
  {
    hide Match, C.Step, R.Step, C.HandInv, C.DoneInv, R.ChildInv, R.CompletionInv, CallsRoot, MayRelist, Unreferenced;
    match e
    case Begin(t, request) => if R.PcOf(s.root, t).Idle? { BeginMatches(s, t, request); }
    case Look => LookMatches(s);
    case Expire => if Unreferenced(s.root) { ExpireMatches(s); }
    case Relist(t, change) => if MayRelist(s, t, change) { ListMatches(s, t, change); }
    case ChildExpires(child) => ChildExpiryMatches(s, child);
    case Go(t) =>
      if t in s.calls {
        if R.PcOf(s.root, t).Idle? { ReturnMatches(s, t); } else { RootCallMatches(s, t); }
      } else if CallsRoot(C.PcOf(s.context, t)) {
        CallMatches(s, t);
      } else if R.PcOf(s.root, t).Idle? {
        ContextStepMatches(s, t);
      } else {
        RootListMatches(s, t);
      }
  }

  lemma LookMatches(s: State)
    requires Match(s)
    ensures Match(OnContext(s, C.Look))
  {
  }

  lemma ExpireMatches(s: State)
    requires Match(s) && Unreferenced(s.root)
    ensures Match(OnContext(s, C.Expire))
  {
  }

  lemma ChildExpiryMatches(s: State, child: R.Child)
    requires Match(s)
    ensures Match(OnRoot(s, R.Expire(child)))
  {
  }

  lemma {:induction false} ExecKeepsMatch(skip: bool, hasCallback: bool, es: seq<Event>)
    ensures Match(Exec(Initial(skip, hasCallback), es))
  {
    hide Step, SidesInv;
    if es != [] {
      hide Match;
      var before := es[..|es| - 1];
      ExecKeepsMatch(skip, hasCallback, before);
      SidesAreSound(skip, hasCallback, before);
      StepKeepsMatch(Exec(Initial(skip, hasCallback), before), es[|es| - 1]);
    }
  }

  // ---------------------------------------------------------------- every child is cancelled

  /** The threads in Start and in the first Cancel have returned. */
  predicate BothReturned(c: C.State) {
    var h := c.hand;
    && h.starter.Some? && !C.PcOf(c, h.starter.value).Starting?
    && h.canceller.Some? && !C.Marked(C.PcOf(c, h.canceller.value))
  }

  /** A call on the root that is over has swept it, and its own recursion is over too. */
  lemma CallHasSwept(s: State)
    requires Match(s) && SidesInv(s) && Made(s.context.hand) >= 1
    ensures s.root.family.swept && s.root.family.sweeper.Some? && !R.Sweeps(R.PcOf(s.root, s.root.family.sweeper.value))
  {
    var t := s.root.family.sweeper.value;
    if t in s.calls { AtCall(s.context, t); }
    hide C.HandInv, C.DoneInv, R.CompletionInv, R.ThreadFacts, R.Shared;
  }

  /** Once Start and the first Cancel of a context have returned, and unless the context
      had been cleaned up when Cancel looked, every live child attached to its root has
      been cancelled with it; and the root itself has been cancelled by one of the two
      and has an empty list, unless nothing hung from it any more. */
  lemma CancelledContextCancelsEveryChild(skip: bool, hasCallback: bool, es: seq<Event>, c: R.Child)
    ensures var s := Exec(Initial(skip, hasCallback), es);
            BothReturned(s.context) && !s.context.hand.cleanedFirst ==>
              && (c in s.root.family.owed && c !in s.root.expired ==> c in s.root.family.cancelCalls)
              && (if Made(s.context.hand) == 1 then s.root.kids.children == [] && s.root.op.view.cancelled
                  else Made(s.context.hand) == 0 && s.context.hand.expiredFirst && Unreferenced(s.root))
  {
    var s := Exec(Initial(skip, hasCallback), es);
    var ces, res := Projects(skip, hasCallback, es);
    ExecKeepsMatch(skip, hasCallback, es);
    SidesAreSound(skip, hasCallback, es);
    C.RootCancelledByExactlyOne(skip, hasCallback, ces);
    R.RootMissesNoChild(false, false, res, c);
    R.NoMissedChild(false, false, res, c);
    hide C.Exec, R.Exec, Exec, C.Initial, R.Initial, Initial, SidesInv;
    if Made(s.context.hand) >= 1 { CallHasSwept(s); }
    hide Caller, CallPc, RootPc;
  }
}
