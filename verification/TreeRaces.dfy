/** A whole tree of operations under any number of threads that complete, cancel and
    restructure any part of it at the same time: each operation is a machine of
    OperationRaces, and a Cancel that recurses waits for the Cancel of the child that it
    has called. A thread inside another call, as in a callback, counts as one more. */
module TreeRaces {
  import opened Threads
  import opened LifecycleWord
  import opened ErrorCodes
  import R = OperationRaces
  import Q = OperationRequests

  /** Operations go by number, as children do; there are as many as are needed. */
  type Op = R.Child

  datatype Frame = Frame(op: Op, tid: Tid)

  /** `calls` has the recursive calls under way: who called, and as whom it runs there. */
  datatype State = State(skips: set<Op>, callbacks: set<Op>, ops: map<Op, R.State>, calls: map<Frame, Tid>)

  /** Any event of any operation, or the call of Cancel on the next child. */
  datatype Event = On(op: Op, event: R.Event) | Call(op: Op, tid: Tid, callee: Tid)

  function Initial(skips: set<Op>, callbacks: set<Op>): State {
    State(skips, callbacks, map[], map[])
  }

  function OpOf(s: State, p: Op): R.State {
    if p in s.ops then s.ops[p] else R.Initial(p in s.skips, p in s.callbacks)
  }

  function OnOp(s: State, p: Op, e: R.Event): State {
    s.(ops := s.ops[p := R.Step(OpOf(s, p), e)])
  }

  predicate Recurses(pc: R.Pc) {
    pc.Cancelling? && pc.cancel.Recursing? && pc.cancel.rest != []
  }

  function Next(pc: R.Pc): Op
    requires Recurses(pc)
  {
    pc.cancel.rest[0]
  }

  /** The recursion goes on to the next child when the call on this one has returned. */
  function Return(s: State, p: Op, t: Tid, child: Op): State {
    var f := Frame(p, t);
    if f in s.calls && R.PcOf(OpOf(s, child), s.calls[f]).Idle? then OnOp(s, p, R.Go(t)).(calls := s.calls - {f}) else s
  }

  function Step(s: State, e: Event): State {
    match e
    case On(p, event) =>
      if event.Go? && Recurses(R.PcOf(OpOf(s, p), event.tid)) then Return(s, p, event.tid, Next(R.PcOf(OpOf(s, p), event.tid)))
      else OnOp(s, p, event)
    case Call(p, t, u) =>
      var pc := R.PcOf(OpOf(s, p), t);
      if Recurses(pc) && Frame(p, t) !in s.calls && R.PcOf(OpOf(s, Next(pc)), u).Idle? then
        OnOp(s, Next(pc), R.Begin(u, R.Request.Cancel(false))).(calls := s.calls[Frame(p, t) := u])
      else s
  }

  function Exec(s: State, es: seq<Event>): State {
    if es == [] then s else Step(Exec(s, es[..|es| - 1]), es[|es| - 1])
  }

  // ---------------------------------------------------------------- each operation on its own

  /** What an operation of the tree does was asked of it, by the environment or by a Cancel
      that recurses, which never forces. */
  predicate FromTree(es: seq<Event>, p: Op, event: R.Event) {
    On(p, event) in es || (event.Begin? && event.request == R.Request.Cancel(false))
  }

  /** What an event comes down to for operation p. */
  lemma Side(s: State, e: Event, p: Op) returns (side: seq<R.Event>)
    ensures forall event :: event in side ==> FromTree([e], p, event)
    ensures |side| <= 1 && Step(s, e).skips == s.skips && Step(s, e).callbacks == s.callbacks
    ensures OpOf(Step(s, e), p) == if side == [] then OpOf(s, p) else R.Step(OpOf(s, p), side[0])
  {
    hide R.Step, R.PcOf, R.Initial;
    side := [];
    match e {
      case On(q, event) =>
        if p == q && Step(s, e) != s { side := [event]; }
      case Call(q, t, u) =>
        if Step(s, e) != s && p == Next(R.PcOf(OpOf(s, q), t)) { side := [R.Begin(u, R.Request.Cancel(false))]; }
    }
  }

  lemma Grows(r: R.State, es: seq<R.Event>, more: seq<R.Event>)
    requires |more| <= 1
    ensures R.Exec(r, es + more) == if more == [] then R.Exec(r, es) else R.Step(R.Exec(r, es), more[0])
  {
    hide R.Step;
    if more == [] { assert es + more == es; } else { assert (es + more)[..|es|] == es; }
  }

  /** A run of the tree is a run of each of its operations: whatever holds of one
      operation under many threads holds of every operation of the tree. */
  lemma {:induction false} Projects(skips: set<Op>, callbacks: set<Op>, es: seq<Event>, p: Op) returns (run: seq<R.Event>)
    ensures OpOf(Exec(Initial(skips, callbacks), es), p) == R.Exec(R.Initial(p in skips, p in callbacks), run)
    ensures Exec(Initial(skips, callbacks), es).skips == skips && Exec(Initial(skips, callbacks), es).callbacks == callbacks
    ensures forall event :: event in run ==> FromTree(es, p, event)
  {
    hide Step, R.Step, R.Initial;
    if es == [] {
      run := [];
    } else {
      hide OpOf, R.Exec, Initial;
      var before, last := es[..|es| - 1], es[|es| - 1];
      run := Projects(skips, callbacks, before, p);
      var side := Side(Exec(Initial(skips, callbacks), before), last, p);
      Grows(R.Initial(p in skips, p in callbacks), run, side);
      assert es == before + [last];
      run := run + side;
    }
  }

  // ---------------------------------------------------------------- calls that are over have cancelled

  predicate Cancelled(r: R.State) {
    r.op.view.cancelled
  }

  /** A call of Cancel is about to make the mark, or the mark has been made. */
  predicate Underway(r: R.State, u: Tid) {
    Cancelled(r) || (R.PcOf(r, u).Cancelling? && R.PcOf(r, u).cancel.Marking?)
  }

  /** Started and not cancelled, or bound to complete: the Cancel that made the mark is
      on its way to do that. */
  predicate OnCourse(r: R.State) {
    || Stage(r.op.view.life) >= 2
    || (r.op.view.life == Started && (!Cancelled(r) || (r.family.sweeper.Some? && Bound(R.PcOf(r, r.family.sweeper.value)))))
  }

  predicate Bound(pc: R.Pc) {
    pc.Cancelling? && !pc.cancel.Marking? && !pc.cancel.Signalling?
  }

  /** What a step of thread t does to the things that matter here: it takes back no
      cancel, keeps its course, and adds to the calls only what a recursion is at. */
  predicate Steady(r: R.State, r': R.State, t: Tid) {
    && r'.threads == r.threads[t := R.PcOf(r', t)]
    && (Cancelled(r) ==> Cancelled(r')) && (Underway(r, t) ==> Underway(r', t))
    && (if Recurses(R.PcOf(r, t)) then r'.family.cancelCalls == r.family.cancelCalls + [Next(R.PcOf(r, t))]
        else r'.family.cancelCalls == r.family.cancelCalls)
    && (!r.skip && OnCourse(r) ==> OnCourse(r'))
  }

  lemma CompletingIsSteady(r: R.State, t: Tid, error: Value, onWin: R.FinishPc)
    requires !Recurses(R.PcOf(r, t)) && !R.PcOf(r, t).Idle?
    requires R.PcOf(r, t).Cancelling? ==> R.PcOf(r, t).cancel.Deciding?
    ensures Steady(r, R.Completing(r, t, error, onWin), t)
  {
  }

  lemma FinishIsSteady(r: R.State, t: Tid, at: R.FinishPc)
    requires R.PcOf(r, t) == R.Finishing(at)
    ensures Steady(r, R.RunFinish(r, t, at), t)
  {
  }

  lemma MarkIsSteady(r: R.State, t: Tid, force: bool)
    requires R.PcOf(r, t) == R.Cancelling(force, R.Marking)
    ensures Steady(r, R.RunCancel(r, t, force, R.Marking), t)
  {
  }

  lemma SweepIsSteady(r: R.State, t: Tid, force: bool, at: R.CancelPc)
    requires R.PcOf(r, t) == R.Cancelling(force, at) && !at.Marking? && !at.Deciding?
    ensures Steady(r, R.RunCancel(r, t, force, at), t)
  {
  }

  lemma ListIsSteady(r: R.State, t: Tid, child: R.Child, at: R.ListPc)
    requires R.PcOf(r, t) == R.Listing(child, at)
    ensures Steady(r, R.RunList(r, t, child, at), t)
  {
    hide R.Without;
  }

  lemma GoIsSteady(r: R.State, t: Tid)
    ensures R.Run(r, t) == r || Steady(r, R.Run(r, t), t)
  {
    hide R.Completing, R.RunFinish, R.RunList, R.SweepStep, Steady;
    match R.PcOf(r, t)
    case Idle =>
    case Trying(error) => CompletingIsSteady(r, t, error, R.Assigning(error));
    case Finishing(at) => FinishIsSteady(r, t, at);
    case Cancelling(force, at) =>
      if at.Marking? { MarkIsSteady(r, t, force); }
      else if at.Deciding? { CompletingIsSteady(r, t, OPERATION_CANCELED, R.CancelHook); DecisionIsSteady(r, t, force); }
      else { SweepIsSteady(r, t, force, at); }
    case Listing(child, at) => ListIsSteady(r, t, child, at);
  }

  lemma DecisionIsSteady(r: R.State, t: Tid, force: bool)
    requires R.PcOf(r, t) == R.Cancelling(force, R.Deciding)
    ensures !force && r.skip ==> Steady(r, R.RunCancel(r, t, force, R.Deciding), t)
  {
  }

  lemma BeginIsSteady(r: R.State, t: Tid, request: R.Request)
    requires R.PcOf(r, t).Idle?
    ensures Steady(r, R.Step(r, R.Begin(t, request)), t)
    ensures request == R.Request.Cancel(false) ==> Underway(R.Step(r, R.Begin(t, request)), t)
  {
  }

  /** What any step of an operation keeps. */
  ghost predicate Keeps(r: R.State, r': R.State) {
    && (Cancelled(r) ==> Cancelled(r')) && (!r.skip && OnCourse(r) ==> OnCourse(r'))
    && forall u :: Underway(r, u) ==> Underway(r', u)
  }

  lemma SteadyKeeps(r: R.State, r': R.State, t: Tid)
    requires Steady(r, r', t)
    ensures Keeps(r, r') && forall u :: u != t ==> R.PcOf(r', u) == R.PcOf(r, u)
  {
    forall u | Underway(r, u) ensures Underway(r', u) {
      if u != t { assert R.PcOf(r', u) == R.PcOf(r, u); }
    }
  }

  lemma WordKeeps(r: R.State, call: Call)
    ensures var r' := R.Step(r, R.Word(call)); Keeps(r, r') && r'.threads == r.threads && r'.family == r.family
  {
  }

  /** A step other than the return of a recursive call. */
  lemma StepKeeps(r: R.State, e: R.Event)
    requires e.Go? ==> !Recurses(R.PcOf(r, e.tid))
    ensures Keeps(r, R.Step(r, e)) && R.Step(r, e).family.cancelCalls == r.family.cancelCalls
    ensures forall u :: Recurses(R.PcOf(r, u)) ==> R.PcOf(R.Step(r, e), u) == R.PcOf(r, u)
  {
    hide R.Run, Steady, Keeps;
    match e
    case Begin(t, request) =>
      if R.PcOf(r, t).Idle? {
        BeginIsSteady(r, t, request);
        SteadyKeeps(r, R.Step(r, e), t);
        BeginCalls(r, t, request);
      } else { KeepsItself(r); }
    case Go(t) =>
      GoIsSteady(r, t);
      KeepsItself(r);
      if R.Run(r, t) != r {
        SteadyKeeps(r, R.Run(r, t), t);
        SteadyCalls(r, R.Run(r, t), t);
      }
    case Word(call) => WordKeeps(r, call);
    case ReadError => OutsideKeeps(r, e);
    case Expire(child) => OutsideKeeps(r, e);
  }

  lemma KeepsItself(r: R.State)
    ensures Keeps(r, r)
  {
  }

  lemma BeginCalls(r: R.State, t: Tid, request: R.Request)
    ensures R.Step(r, R.Begin(t, request)).family == r.family
  {
  }

  lemma SteadyCalls(r: R.State, r': R.State, t: Tid)
    requires Steady(r, r', t)
    ensures r'.family.cancelCalls == if Recurses(R.PcOf(r, t)) then r.family.cancelCalls + [Next(R.PcOf(r, t))] else r.family.cancelCalls
  {
  }

  lemma OutsideKeeps(r: R.State, e: R.Event)
    requires e.ReadError? || e.Expire?
    ensures var r' := R.Step(r, e); Keeps(r, r') && r'.threads == r.threads && r'.family == r.family
  {
  }

  // ---------------------------------------------------------------- the tree

  ghost predicate CallsStand(s: State) {
    forall f :: f in s.calls ==> Stands(s, f)
  }

  predicate Stands(s: State, f: Frame)
    requires f in s.calls
  {
    var pc := R.PcOf(OpOf(s, f.op), f.tid);
    Recurses(pc) && Underway(OpOf(s, Next(pc)), s.calls[f])
  }

  lemma FrameStands(s: State, s': State, f: Frame)
    requires f in s.calls && f in s'.calls && s'.calls[f] == s.calls[f] && Stands(s, f)
    requires R.PcOf(OpOf(s', f.op), f.tid) == R.PcOf(OpOf(s, f.op), f.tid)
    requires forall q :: Keeps(OpOf(s, q), OpOf(s', q))
    ensures Stands(s', f)
  {
    var c := Next(R.PcOf(OpOf(s, f.op), f.tid));
    assert Keeps(OpOf(s, c), OpOf(s', c));
  }

  /** Every child whose turn is over has been cancelled. */
  ghost predicate TurnsOver(s: State) {
    forall p, c :: c in OpOf(s, p).family.cancelCalls ==> Cancelled(OpOf(s, c))
  }

  /** Operation p has become r, the others are as they were. */
  ghost predicate Becomes(s: State, s': State, p: Op, r: R.State) {
    OpOf(s', p) == r && forall q :: q != p ==> OpOf(s', q) == OpOf(s, q)
  }

  lemma OnOpBecomes(s: State, p: Op, e: R.Event)
    ensures Becomes(s, OnOp(s, p, e), p, R.Step(OpOf(s, p), e)) && OnOp(s, p, e).calls == s.calls
  {
    hide R.Step, R.Initial;
  }

  lemma WithCalls(s: State, calls: map<Frame, Tid>)
    ensures forall q :: OpOf(s.(calls := calls), q) == OpOf(s, q)
  {
    hide R.Initial;
  }

  lemma KeptByAll(s: State, s': State, p: Op, r: R.State)
    requires Becomes(s, s', p, r) && Keeps(OpOf(s, p), r)
    ensures forall q :: Keeps(OpOf(s, q), OpOf(s', q))
  {
    hide Keeps, OpOf;
    forall q ensures Keeps(OpOf(s, q), OpOf(s', q)) { KeepsItself(OpOf(s, q)); }
  }

  lemma TurnsStayOver(s: State, s': State, p: Op, more: seq<Op>)
    requires TurnsOver(s) && (forall q :: Keeps(OpOf(s, q), OpOf(s', q))) && forall c :: c in more ==> Cancelled(OpOf(s, c))
    requires Becomes(s, s', p, OpOf(s', p)) && OpOf(s', p).family.cancelCalls == OpOf(s, p).family.cancelCalls + more
    ensures TurnsOver(s')
  {
    hide OpOf, Underway, OnCourse, Cancelled;
    forall q, c | c in OpOf(s', q).family.cancelCalls ensures Cancelled(OpOf(s', c)) {
      assert Keeps(OpOf(s, c), OpOf(s', c));
      assert c in OpOf(s, q).family.cancelCalls || c in more;
    }
  }

  lemma OnOpStands(s: State, p: Op, e: R.Event)
    requires CallsStand(s) && TurnsOver(s) && (e.Go? ==> !Recurses(R.PcOf(OpOf(s, p), e.tid)))
    ensures CallsStand(OnOp(s, p, e)) && TurnsOver(OnOp(s, p, e)) && forall q :: Keeps(OpOf(s, q), OpOf(OnOp(s, p, e), q))
  {
    var s' := OnOp(s, p, e);
    hide R.Step, OpOf, OnOp, Keeps, Recurses, Underway, R.PcOf;
    OnOpBecomes(s, p, e);
    StepKeeps(OpOf(s, p), e);
    KeptByAll(s, s', p, R.Step(OpOf(s, p), e));
    TurnsStayOver(s, s', p, []);
    forall f | f in s'.calls ensures Stands(s', f) {
      assert Stands(s, f);
      FrameStands(s, s', f);
    }
  }

  lemma ReturnKeeps(r: R.State, t: Tid)
    requires Recurses(R.PcOf(r, t))
    ensures var r' := R.Step(r, R.Go(t));
            && Keeps(r, r') && r'.family.cancelCalls == r.family.cancelCalls + [Next(R.PcOf(r, t))]
            && forall u :: u != t ==> R.PcOf(r', u) == R.PcOf(r, u)
  {
    var pc := R.PcOf(r, t);
    SweepIsSteady(r, t, pc.force, pc.cancel);
    hide R.SweepStep, Steady, Keeps;
    assert R.Run(r, t) == R.RunCancel(r, t, pc.force, pc.cancel);
    SteadyKeeps(r, R.Run(r, t), t);
    SteadyCalls(r, R.Run(r, t), t);
  }

  lemma NothingKeeps(s: State)
    ensures forall q :: Keeps(OpOf(s, q), OpOf(s, q))
  {
    hide Keeps, OpOf;
    forall q ensures Keeps(OpOf(s, q), OpOf(s, q)) { KeepsItself(OpOf(s, q)); }
  }

  lemma ReturnStands(s: State, p: Op, t: Tid)
    requires CallsStand(s) && TurnsOver(s) && Recurses(R.PcOf(OpOf(s, p), t))
    ensures var s' := Return(s, p, t, Next(R.PcOf(OpOf(s, p), t)));
            CallsStand(s') && TurnsOver(s') && forall q :: Keeps(OpOf(s, q), OpOf(s', q))
  {
    var child := Next(R.PcOf(OpOf(s, p), t));
    var s' := Return(s, p, t, child);
    var i := OnOp(s, p, R.Go(t));
    hide *;
    ReturnIs(s, p, t, child);
    if s' == s {
      NothingKeeps(s);
    } else {
      CallIsOver(s, p, t);
      OnOpBecomes(s, p, R.Go(t));
      WithCalls(i, s.calls - {Frame(p, t)});
      ReturnKeeps(OpOf(s, p), t);
      StillBecomes(s, i, s', p, R.Step(OpOf(s, p), R.Go(t)));
      KeptByAll(s, s', p, R.Step(OpOf(s, p), R.Go(t)));
      TurnsStayOver(s, s', p, [child]);
      OtherFrames(s, s', p, t);
    }
  }

  lemma ReturnIs(s: State, p: Op, t: Tid, child: Op)
    ensures var s' := Return(s, p, t, child); var f := Frame(p, t);
            s' == s || (f in s.calls && R.PcOf(OpOf(s, child), s.calls[f]).Idle? && s' == OnOp(s, p, R.Go(t)).(calls := s.calls - {f}))
  {
    hide OnOp, OpOf, R.PcOf;
    assert OnOp(s, p, R.Go(t)).calls == s.calls by { OnOpBecomes(s, p, R.Go(t)); }
  }

  lemma StillBecomes(s: State, i: State, s': State, p: Op, r: R.State)
    requires Becomes(s, i, p, r) && forall q :: OpOf(s', q) == OpOf(i, q)
    ensures Becomes(s, s', p, r) && OpOf(s', p) == r
  {
    hide OpOf;
  }

  lemma OtherFrames(s: State, s': State, p: Op, t: Tid)
    requires CallsStand(s) && s'.calls == s.calls - {Frame(p, t)} && (forall q :: Keeps(OpOf(s, q), OpOf(s', q)))
    requires Becomes(s, s', p, OpOf(s', p)) && forall u :: u != t ==> R.PcOf(OpOf(s', p), u) == R.PcOf(OpOf(s, p), u)
    ensures CallsStand(s')
  {
    hide OpOf, Keeps, Stands, R.PcOf;
    forall f | f in s'.calls ensures Stands(s', f) { FrameStands(s, s', f); }
  }

  lemma CallIsOver(s: State, p: Op, t: Tid)
    requires CallsStand(s) && Recurses(R.PcOf(OpOf(s, p), t)) && Frame(p, t) in s.calls
    requires R.PcOf(OpOf(s, Next(R.PcOf(OpOf(s, p), t))), s.calls[Frame(p, t)]).Idle?
    ensures Cancelled(OpOf(s, Next(R.PcOf(OpOf(s, p), t))))
  {
    hide OpOf;
    assert Stands(s, Frame(p, t));
  }

  lemma CallStands(s: State, p: Op, t: Tid, u: Tid)
    requires CallsStand(s) && TurnsOver(s)
    ensures var s' := Step(s, Call(p, t, u));
            CallsStand(s') && TurnsOver(s') && forall q :: Keeps(OpOf(s, q), OpOf(s', q))
  {
    var s' := Step(s, Call(p, t, u));
    NothingKeeps(s);
    if s' != s {
      var child, f := Next(R.PcOf(OpOf(s, p), t)), Frame(p, t);
      var e := R.Begin(u, R.Request.Cancel(false));
      var i := OnOp(s, child, e);
      assert s' == i.(calls := s.calls[f := u]);
      hide R.Step, OpOf, OnOp, Underway, Keeps, Stands, Step;
      BeginIsSteady(OpOf(s, child), u, R.Request.Cancel(false));
      OnOpBecomes(s, child, e);
      OnOpStands(s, child, e);
      WithCalls(i, s.calls[f := u]);
      SamePcs(s, child, e);
      CallHasBegun(s, i, s', f, u);
    }
  }

  lemma SamePcs(s: State, p: Op, e: R.Event)
    requires e.Begin?
    ensures forall q, u :: Recurses(R.PcOf(OpOf(s, q), u)) ==> R.PcOf(OpOf(OnOp(s, p, e), q), u) == R.PcOf(OpOf(s, q), u)
  {
    hide R.Step, OpOf, OnOp, Keeps;
    OnOpBecomes(s, p, e);
    StepKeeps(OpOf(s, p), e);
  }

  lemma CallHasBegun(s: State, i: State, s': State, f: Frame, u: Tid)
    requires Recurses(R.PcOf(OpOf(s, f.op), f.tid)) && CallsStand(i) && TurnsOver(i)
    requires f !in i.calls && s'.calls == i.calls[f := u] && forall q :: OpOf(s', q) == OpOf(i, q)
    requires R.PcOf(OpOf(i, f.op), f.tid) == R.PcOf(OpOf(s, f.op), f.tid)
    requires Underway(OpOf(i, Next(R.PcOf(OpOf(s, f.op), f.tid))), u)
    ensures CallsStand(s') && TurnsOver(s')
  {
    hide OpOf, Underway, R.PcOf, Cancelled;
    forall g | g in s'.calls ensures Stands(s', g) {
      if g != f { assert Stands(i, g); }
    }
  }

  lemma StepStands(s: State, e: Event)
    requires CallsStand(s) && TurnsOver(s)
    ensures CallsStand(Step(s, e)) && TurnsOver(Step(s, e)) && forall q :: Keeps(OpOf(s, q), OpOf(Step(s, e), q))
  {
    hide CallsStand, TurnsOver, Keeps, OnOp, Return;
    match e
    case On(p, event) =>
      if event.Go? && Recurses(R.PcOf(OpOf(s, p), event.tid)) { ReturnStands(s, p, event.tid); } else { OnOpStands(s, p, event); }
    case Call(p, t, u) => CallStands(s, p, t, u);
  }

  lemma {:induction false} ExecStands(skips: set<Op>, callbacks: set<Op>, es: seq<Event>)
    ensures CallsStand(Exec(Initial(skips, callbacks), es)) && TurnsOver(Exec(Initial(skips, callbacks), es))
  {
    hide Step;
    if es != [] {
      hide CallsStand, TurnsOver;
      ExecStands(skips, callbacks, es[..|es| - 1]);
      StepStands(Exec(Initial(skips, callbacks), es[..|es| - 1]), es[|es| - 1]);
    }
  }

  // ---------------------------------------------------------------- when everything has come to rest

  ghost predicate AtRest(s: State) {
    forall p, t :: R.PcOf(OpOf(s, p), t).Idle?
  }

  lemma Sound(skips: set<Op>, callbacks: set<Op>, es: seq<Event>, p: Op)
    ensures var r := OpOf(Exec(Initial(skips, callbacks), es), p);
            R.ChildInv(r) && R.CompletionInv(r) && r.skip == (p in skips) && r.hasCallback == (p in callbacks)
  {
    var run := Projects(skips, callbacks, es, p);
    hide R.ChildInv, R.CompletionInv, Exec, R.Exec, R.Initial, Initial, OpOf;
    R.ExecKeepsInv(p in skips, p in callbacks, run);
  }

  /** Exactly which children of a cancelled operation have been cancelled by it. */
  lemma ExactlyTheListed(skips: set<Op>, callbacks: set<Op>, es: seq<Event>, p: Op, c: Op)
    ensures var s := Exec(Initial(skips, callbacks), es);
            var r := OpOf(s, p);
            AtRest(s) && Cancelled(r) && c in r.family.owed && c !in r.expired ==>
              && (c in r.family.cancelCalls <==> !r.family.cleanedFirst)
              && (c in r.family.cancelCalls ==> Cancelled(OpOf(s, c)))
  {
    var s := Exec(Initial(skips, callbacks), es);
    var run := Projects(skips, callbacks, es, p);
    ExecStands(skips, callbacks, es);
    Sound(skips, callbacks, es, p);
    R.NoMissedChild(p in skips, p in callbacks, run, c);
    hide Exec, R.Exec, R.Initial, Initial, R.CompletionInv, CallsStand;
    if AtRest(s) && Cancelled(OpOf(s, p)) { Swept(OpOf(s, p)); }
  }

  lemma Swept(r: R.State)
    requires R.ChildInv(r) && Cancelled(r) && forall t :: R.PcOf(r, t).Idle?
    ensures r.family.swept && r.family.sweeper.Some? && !R.Sweeps(R.PcOf(r, r.family.sweeper.value))
  {
  }

  /** Every next member is attached to the one before, alive, and the one before had not
      been cleaned up when its Cancel swept it. */
  predicate Chain(s: State, path: seq<Op>) {
    forall i :: 0 < i < |path| ==>
      var r := OpOf(s, path[i - 1]);
      path[i] in r.family.owed && path[i] !in r.expired && !r.family.cleanedFirst
  }

  lemma ChainGoesOn(s: State, path: seq<Op>)
    requires Chain(s, path) && |path| > 1
    ensures Chain(s, path[1..])
    ensures var r := OpOf(s, path[0]); path[1] in r.family.owed && path[1] !in r.expired && !r.family.cleanedFirst
  {
    var rest := path[1..];
    forall i | 0 < i < |rest|
      ensures var r := OpOf(s, rest[i - 1]); rest[i] in r.family.owed && rest[i] !in r.expired && !r.family.cleanedFirst
    {
      assert rest[i - 1] == path[i] && rest[i] == path[i + 1];
    }
  }

  /** Whatever the threads have done and in whatever order: when all have come to rest,
      the cancel of an operation has reached everything that hangs from it. */
  lemma {:induction false} CancelReachesTheTree(skips: set<Op>, callbacks: set<Op>, es: seq<Event>, path: seq<Op>)
    requires AtRest(Exec(Initial(skips, callbacks), es)) && Chain(Exec(Initial(skips, callbacks), es), path)
    requires path != [] && Cancelled(OpOf(Exec(Initial(skips, callbacks), es), path[0]))
    ensures forall p :: p in path ==> Cancelled(OpOf(Exec(Initial(skips, callbacks), es), p))
    decreases |path|
  {
    var s := Exec(Initial(skips, callbacks), es);
    hide AtRest, Exec, Initial, Cancelled, OpOf, Chain;
    if |path| > 1 {
      ChainGoesOn(s, path);
      ExactlyTheListed(skips, callbacks, es, path[0], path[1]);
      CancelReachesTheTree(skips, callbacks, es, path[1..]);
    }
  }

  /** Whatever happens, an operation on its course stays on it. */
  lemma {:induction false} StaysOnCourse(skips: set<Op>, callbacks: set<Op>, es: seq<Event>, more: seq<Event>, p: Op)
    requires p !in skips && OnCourse(OpOf(Exec(Initial(skips, callbacks), es), p))
    ensures OnCourse(OpOf(Exec(Initial(skips, callbacks), es + more), p))
  {
    hide Step, OnCourse;
    if more == [] {
      assert es + more == es;
    } else {
      var before := es + more[..|more| - 1];
      assert (es + more)[..|es + more| - 1] == before;
      StaysOnCourse(skips, callbacks, es, more[..|more| - 1], p);
      var s := Exec(Initial(skips, callbacks), before);
      ExecStands(skips, callbacks, before);
      Sound(skips, callbacks, before, p);
      hide CallsStand, TurnsOver, Exec, R.ChildInv, R.CompletionInv, OpOf;
      StepStands(s, more[|more| - 1]);
      assert Keeps(OpOf(s, p), OpOf(Step(s, more[|more| - 1]), p));
    }
  }

  /** The error was asked of this very operation, or is the cancellation. */
  ghost predicate AskedInTree(es: seq<Event>, p: Op, error: Value, signals: bool) {
    || (exists t :: On(p, R.Begin(t, R.TryComplete(error))) in es)
    || (error == OPERATION_CANCELED && (signals ==> exists t :: On(p, R.Begin(t, R.Request.Cancel(true))) in es))
  }

  lemma WonInTree(es: seq<Event>, p: Op, run: seq<R.Event>, t: Tid, error: Value, signals: bool)
    requires (forall event :: event in run ==> FromTree(es, p, event)) && Q.WonFor(run, t, error, signals)
    ensures AskedInTree(es, p, error, signals)
  {
    if R.Begin(t, R.TryComplete(error)) in run {
      assert FromTree(es, p, R.Begin(t, R.TryComplete(error)));
    } else if signals {
      assert FromTree(es, p, R.Begin(t, R.Request.Cancel(true)));
    }
  }

  /** In every run of the tree, whatever threads work where: a completed operation has the
      error that it was asked to complete with, or has been cancelled. */
  lemma ErrorWasAskedFor(skips: set<Op>, callbacks: set<Op>, es: seq<Event>, p: Op)
    ensures var r := OpOf(Exec(Initial(skips, callbacks), es), p);
            r.op.view.life in {Life.Completed, Ended} ==> AskedInTree(es, p, r.op.error.value, p in skips)
  {
    var run := Projects(skips, callbacks, es, p);
    Q.ErrorWasAskedFor(p in skips, p in callbacks, run);
    hide Exec, R.Exec, Initial, R.Initial, OpOf, Q.WonFor, AskedInTree;
    var r := OpOf(Exec(Initial(skips, callbacks), es), p);
    if r.op.view.life in {Life.Completed, Ended} { WonInTree(es, p, run, r.done.owner.value, r.op.error.value, p in skips); }
  }

  /** And what was started and not cancelled at some time before, and does not treat cancel
      as a mere signal, has completed: its winner has stored its error, has called
      back once, and the list of children is empty. */
  lemma CancelCompletesTheTree(skips: set<Op>, callbacks: set<Op>, es: seq<Event>, more: seq<Event>, p: Op)
    requires p !in skips && OnCourse(OpOf(Exec(Initial(skips, callbacks), es), p))
    requires AtRest(Exec(Initial(skips, callbacks), es + more)) && Cancelled(OpOf(Exec(Initial(skips, callbacks), es + more), p))
    ensures var r := OpOf(Exec(Initial(skips, callbacks), es + more), p);
            && Stage(r.op.view.life) >= 3 && r.done.winner == Some(r.op.error.value) && r.kids.children == []
            && R.FiredOnce(p in callbacks, r.done.fired, r.op.error.value) && !r.op.callback
            && AskedInTree(es + more, p, r.op.error.value, false)
  {
    hide Exec, Initial, OpOf, OnCourse, AskedInTree, R.ChildInv, R.CompletionInv, R.FiredOnce;
    ErrorWasAskedFor(skips, callbacks, es + more, p);
    StaysOnCourse(skips, callbacks, es, more, p);
    Sound(skips, callbacks, es + more, p);
    Completed(OpOf(Exec(Initial(skips, callbacks), es + more), p));
  }

  lemma Completed(r: R.State)
    requires R.ChildInv(r) && R.CompletionInv(r) && OnCourse(r) && Cancelled(r) && forall t :: R.PcOf(r, t).Idle?
    ensures r.op.view.life in {Life.Completed, Ended} && Stage(r.op.view.life) >= 3 && r.done.winner == Some(r.op.error.value) && r.kids.children == []
    ensures R.FiredOnce(r.hasCallback, r.done.fired, r.op.error.value) && !r.op.callback
  {
    Swept(r);
  }
}
