/** The calling convention of an asynchronous operation, run by any number of
    threads on the interleaved word: the caller of Begin ends the operation if it
    completed synchronously, the completion callback ends it otherwise. */
module EndProtocol {
  import opened Threads
  import opened LifecycleWord
  import opened InterleavedWord

  /** The thread that calls Begin; all others get the operation once it is started.
      A completion inside Begin is the case where the winner's steps all run
      before the starter's check. */
  const STARTER: Tid := 0

  datatype Client =
    | Free
    | StartCalled | StartDone | StarterChecking | StarterMustEnd | StarterEnding | StarterOut(ended: bool)
    | Competing | Won | Finishing
    | InCallback | CallbackChecking | CallbackMustEnd | CallbackEnding | CallbackOut(ended: bool)
    | Other(call: Call)

  /** `broken` records that an assertion of the source has failed. */
  datatype World = World(obj: InterleavedWord.State, clients: map<Tid, Client>,
                         starterEnds: nat, callbackEnds: nat, broken: bool)

  /** A thread makes its next call, a call in progress takes a step, or a call returns. */
  datatype Event = Act(tid: Tid, choice: Call) | Internal(step: InterleavedWord.Event) | Deliver(tid: Tid)

  const INITIAL := World(InterleavedWord.INITIAL, map[], 0, 0, false)

  function ClientOf(clients: map<Tid, Client>, t: Tid): Client {
    if t in clients then clients[t] else Free
  }

  /** The next call of a thread. Threads without a role may compete to complete
      the operation, poll it, look at it or request its cancellation. */
  function NextCall(t: Tid, cl: Client, choice: Call, v: View): Option<(Client, Call)> {
    match cl
    case Free =>
      if t == STARTER then Some((StartCalled, Start))
      else if v.life == Created then None
      else if choice == BeginComplete then Some((Competing, BeginComplete))
      else if choice in {Observe, RequestCancel, Peek} then Some((Other(choice), choice))
      else None
    case StartDone => Some((StarterChecking, Observe))
    case StarterMustEnd => Some((StarterEnding, End))
    case Won => Some((Finishing, Complete))
    case InCallback => Some((CallbackChecking, Observe))
    case CallbackMustEnd => Some((CallbackEnding, End))
    case _ => None
  }

  function Received(cl: Client, answer: Answer): Client {
    match cl
    case StartCalled => StartDone
    case StarterChecking =>
      if answer.Verdict? && answer.synchronous then StarterMustEnd else StarterOut(false)
    case StarterEnding => StarterOut(true)
    case Competing => if answer == Swapped(true) then Won else Free
    case Finishing => InCallback
    case CallbackChecking =>
      if answer.Verdict? && !answer.synchronous then CallbackMustEnd else CallbackOut(false)
    case CallbackEnding => CallbackOut(true)
    case Other(_) => Free
    case _ => cl
  }

  /** The assertions in TransitionStarted, TransitionCompleted, TransitionEnded
      and ObserveState. */
  predicate Asserted(cl: Client, answer: Answer) {
    match cl
    case StartCalled => answer == Swapped(true)
    case Finishing => answer == Swapped(true)
    case StarterEnding => answer == Swapped(true)
    case CallbackEnding => answer == Swapped(true)
    case _ => answer != PREMATURE
  }

  function Step(s: World, e: Event): World {
    match e
    case Act(t, choice) =>
      var next := NextCall(t, ClientOf(s.clients, t), choice, Read(s.obj.word));
      if next.Some? && ThreadOf(s.obj, t).Idle? then
        var (cl, call) := next.value;
        World(InterleavedWord.Step(s.obj, Invoke(t, call)), s.clients[t := cl],
              s.starterEnds + (if cl.StarterEnding? then 1 else 0),
              s.callbackEnds + (if cl.CallbackEnding? then 1 else 0), s.broken)
      else s
    case Internal(step) =>
      if step.Invoke? || step.Return? then s else s.(obj := InterleavedWord.Step(s.obj, step))
    case Deliver(t) =>
      var th := ThreadOf(s.obj, t);
      if th.Ready? then
        var answer := AnswerOf(th.call, th.ok, th.desired);
        var cl := ClientOf(s.clients, t);
        s.(obj := InterleavedWord.Step(s.obj, Return(t)), clients := s.clients[t := Received(cl, answer)],
           broken := s.broken || !Asserted(cl, answer))
      else s
  }

  function Exec(es: seq<Event>): World {
    if es == [] then INITIAL else Step(Exec(es[..|es| - 1]), es[|es| - 1])
  }

  // ---------------------------------------------------------------- the invariant

  /** The thread that won the right to complete, until for ever. */
  predicate Token(cl: Client, st: Status) {
    || (cl.Competing? && st.Answering? && st.answer == Swapped(true))
    || cl.Won? || cl.Finishing?
    || cl.InCallback? || cl.CallbackChecking? || cl.CallbackMustEnd? || cl.CallbackEnding? || cl.CallbackOut?
  }

  predicate InFlight(st: Status, call: Call) {
    st == Pending(call) || (st.Answering? && st.call == call)
  }

  predicate Succeeding(st: Status, call: Call, v: View, from: Life, done: bool) {
    (st == Pending(call) && v.life == from) || (st == Answering(call, Swapped(true)) && done)
  }

  predicate ClientOk(t: Tid, cl: Client, st: Status, v: View) {
    match cl
    case Free => st.Quiet? && (t == STARTER ==> v.life == Created)
    case StartCalled => t == STARTER && Succeeding(st, Start, v, Created, v.life != Created)
    case StartDone => t == STARTER && st.Quiet? && v.life != Created
    case StarterChecking =>
      && t == STARTER && v.life != Created
      && (st == Pending(Observe) ||
          (st.Answering? && st.call == Observe && st.answer.Verdict? && st.answer != PREMATURE &&
           SoundAnswer(st.answer, v)))
    case StarterMustEnd => t == STARTER && st.Quiet? && !v.observed && v.life == Completed
    case StarterEnding => t == STARTER && !v.observed && Succeeding(st, End, v, Completed, v.life == Ended)
    case StarterOut(ended) => t == STARTER && st.Quiet? && ended == !v.observed && v.life != Created && (ended ==> v.life == Ended)
    case Competing =>
      && t != STARTER && v.life != Created
      && (st == Pending(BeginComplete) ||
          (st.Answering? && st.call == BeginComplete && st.answer.Swapped? && Stage(v.life) >= 2 &&
           (st.answer.ok ==> v.life == Completing)))
    case Won => t != STARTER && st.Quiet? && v.life == Completing
    case Finishing => t != STARTER && Succeeding(st, Complete, v, Completing, Stage(v.life) >= 3)
    case InCallback => t != STARTER && st.Quiet? && Stage(v.life) >= 3
    case CallbackChecking =>
      && t != STARTER && Stage(v.life) >= 3
      && (st == Pending(Observe) || st == Answering(Observe, Verdict(true, !v.observed)))
    case CallbackMustEnd => t != STARTER && st.Quiet? && v.observed && v.life == Completed
    case CallbackEnding => t != STARTER && v.observed && Succeeding(st, End, v, Completed, v.life == Ended)
    case CallbackOut(ended) =>
      && t != STARTER && st.Quiet? && ended == v.observed && Stage(v.life) >= 3 && (ended ==> v.life == Ended)
    case Other(c) =>
      && t != STARTER && v.life != Created && c in {Observe, RequestCancel, Peek}
      && InFlight(st, c) && (st.Answering? ==> st.answer != PREMATURE)
  }

  predicate HasEnded(cl: Client) {
    cl.StarterEnding? || cl == StarterOut(true) || cl.CallbackEnding? || cl == CallbackOut(true)
  }

  predicate Ok(a: AtomicState, clients: map<Tid, Client>, t: Tid) {
    ClientOk(t, ClientOf(clients, t), StatusOf(a, t), a.view)
  }

  predicate Holds(a: AtomicState, clients: map<Tid, Client>, t: Tid) {
    Token(ClientOf(clients, t), StatusOf(a, t))
  }

  ghost predicate AllOk(a: AtomicState, clients: map<Tid, Client>) {
    && (a.view.observed ==> a.view.life != Created)
    && forall t :: Ok(a, clients, t)
  }

  ghost predicate OneHolder(a: AtomicState, clients: map<Tid, Client>) {
    forall t, u :: Holds(a, clients, t) && Holds(a, clients, u) ==> t == u
  }

  ghost predicate CountsOk(a: AtomicState, clients: map<Tid, Client>, starterEnds: nat, callbackEnds: nat) {
    && starterEnds == (if HasEnded(ClientOf(clients, STARTER)) then 1 else 0)
    && callbackEnds <= 1
    && (Stage(a.view.life) <= 1 ==> callbackEnds == 0)
    && (callbackEnds == 1 ==> a.view.observed)
    && (a.view.life == Ended ==> starterEnds + callbackEnds >= 1)
    && (forall t :: Holds(a, clients, t) ==> callbackEnds == if HasEnded(ClientOf(clients, t)) then 1 else 0)
  }

  ghost predicate Core(a: AtomicState, clients: map<Tid, Client>, starterEnds: nat, callbackEnds: nat) {
    AllOk(a, clients) && OneHolder(a, clients) && CountsOk(a, clients, starterEnds, callbackEnds)
  }

  ghost predicate Inv(s: World) {
    && InterleavedWord.Inv(s.obj)
    && Core(Abs(s.obj), s.clients, s.starterEnds, s.callbackEnds)
    && !s.broken
  }

  // ---------------------------------------------------------------- one thread, then all

  lemma HoldersComplete(t: Tid, cl: Client, st: Status, v: View)
    requires ClientOk(t, cl, st, v) && Token(cl, st)
    ensures t != STARTER && Stage(v.life) >= 2
    ensures HasEnded(cl) ==> v.observed
  {
  }

  lemma OwnCommit(t: Tid, cl: Client, c: Call, v: View)
    requires ClientOk(t, cl, Pending(c), v) && (v.observed ==> v.life != Created)
    ensures var o := Atomic(c, v);
            && ClientOk(t, cl, Answering(c, o.answer), o.view)
            && (o.view.observed ==> o.view.life != Created)
            && (Token(cl, Answering(c, o.answer)) && !Token(cl, Pending(c)) ==> Stage(v.life) <= 1 && !HasEnded(cl))
            && (v.life != Ended && o.view.life == Ended ==> HasEnded(cl) && (t == STARTER || Token(cl, Pending(c))))
            && (Stage(v.life) <= 1 && Stage(o.view.life) >= 2 ==> Token(cl, Answering(c, o.answer)))
  {
  }

  lemma OthersCommit(u: Tid, cl: Client, st: Status, t: Tid, cl': Client, c: Call, v: View)
    requires ClientOk(u, cl, st, v) && ClientOk(t, cl', Pending(c), v)
    requires t != u && !(Token(cl, st) && Token(cl', Pending(c)))
    ensures ClientOk(u, cl, st, Atomic(c, v).view)
  {
  }

  /** A call in progress takes effect. */
  lemma CommitKeepsCore(a: AtomicState, clients: map<Tid, Client>, starterEnds: nat, callbackEnds: nat, t: Tid)
    requires Core(a, clients, starterEnds, callbackEnds)
    ensures Core(AtomicStep(a, Commit(t)), clients, starterEnds, callbackEnds)
  {
    hide ClientOk, Token, HasEnded, Atomic;
    var a' := AtomicStep(a, Commit(t));
    if StatusOf(a, t).Pending? {
      assert Ok(a, clients, t);
      var cl, c := ClientOf(clients, t), StatusOf(a, t).call;
      OwnCommit(t, cl, c, a.view);
      AtomicMovesOnce(c, a.view);
      forall u
        ensures Ok(a', clients, u)
        ensures u != t ==> Holds(a', clients, u) == Holds(a, clients, u)
        ensures Holds(a, clients, u) ==> Stage(a.view.life) >= 2
      {
        assert Ok(a, clients, u);
        if Holds(a, clients, u) { HoldersComplete(u, ClientOf(clients, u), StatusOf(a, u), a.view); }
        if u != t {
          assert !(Holds(a, clients, u) && Holds(a, clients, t));
          OthersCommit(u, ClientOf(clients, u), StatusOf(a, u), t, cl, c, a.view);
        }
      }
      assert Holds(a, clients, t) ==> callbackEnds == if HasEnded(cl) then 1 else 0;
      if Holds(a', clients, t) && !Holds(a, clients, t) {
        assert forall u :: u != t ==> !Holds(a', clients, u);
      } else {
        assert forall u :: Holds(a', clients, u) ==> Holds(a, clients, u);
      }
    }
  }

  lemma OwnAct(t: Tid, cl: Client, choice: Call, v: View)
    requires ClientOk(t, cl, Quiet, v) && NextCall(t, cl, choice, v).Some?
    ensures var (cl', call) := NextCall(t, cl, choice, v).value;
            && ClientOk(t, cl', Pending(call), v)
            && Token(cl', Pending(call)) == Token(cl, Quiet)
            && !HasEnded(cl) && HasEnded(cl') == (cl'.StarterEnding? || cl'.CallbackEnding?)
            && (cl'.StarterEnding? ==> t == STARTER)
            && (Token(cl, Quiet) ==> t != STARTER)
            && (cl'.CallbackEnding? ==> Token(cl, Quiet) && t != STARTER && Stage(v.life) >= 2 && v.observed)
  {
  }

  lemma ActKeepsCore(a: AtomicState, clients: map<Tid, Client>, starterEnds: nat, callbackEnds: nat, t: Tid, choice: Call)
    requires Core(a, clients, starterEnds, callbackEnds)
    requires NextCall(t, ClientOf(clients, t), choice, a.view).Some? && StatusOf(a, t).Quiet?
    ensures var (cl, call) := NextCall(t, ClientOf(clients, t), choice, a.view).value;
            Core(AtomicStep(a, AInvoke(t, call)), clients[t := cl],
                 starterEnds + (if cl.StarterEnding? then 1 else 0),
                 callbackEnds + (if cl.CallbackEnding? then 1 else 0))
  {
    hide ClientOk, Token, HasEnded, NextCall;
    var (cl, call) := NextCall(t, ClientOf(clients, t), choice, a.view).value;
    var a', clients' := AtomicStep(a, AInvoke(t, call)), clients[t := cl];
    assert Ok(a, clients, t);
    OwnAct(t, ClientOf(clients, t), choice, a.view);
    assert Holds(a', clients', t) == Holds(a, clients, t);
    assert Holds(a, clients, t) ==> callbackEnds == if HasEnded(ClientOf(clients, t)) then 1 else 0;
    OthersUntouched(a, a', clients, clients', t);
    if Holds(a, clients, t) { assert forall u :: Holds(a', clients', u) ==> u == t; }
  }

  lemma OthersUntouched(a: AtomicState, a': AtomicState, clients: map<Tid, Client>, clients': map<Tid, Client>, t: Tid)
    requires a'.view == a.view && AllOk(a, clients) && OneHolder(a, clients)
    requires forall u :: u != t ==> ClientOf(clients', u) == ClientOf(clients, u) && StatusOf(a', u) == StatusOf(a, u)
    requires Ok(a', clients', t) && Holds(a', clients', t) == Holds(a, clients, t)
    ensures AllOk(a', clients') && OneHolder(a', clients')
    ensures forall u :: Holds(a', clients', u) ==> Holds(a, clients, u)
  {
    hide ClientOk, Token;
    forall u | u != t ensures Ok(a', clients', u) && Holds(a', clients', u) == Holds(a, clients, u) {
      assert Ok(a, clients, u);
    }
  }

  lemma OwnDeliver(t: Tid, cl: Client, call: Call, answer: Answer, v: View, someoneEnded: bool)
    requires ClientOk(t, cl, Answering(call, answer), v)
    requires v.life == Ended ==> someoneEnded
    requires someoneEnded ==> HasEnded(cl) || (if t == STARTER then v.observed else !v.observed || !Token(cl, Answering(call, answer)))
    ensures ClientOk(t, Received(cl, answer), Quiet, v)
    ensures Token(Received(cl, answer), Quiet) == Token(cl, Answering(call, answer))
    ensures HasEnded(Received(cl, answer)) == HasEnded(cl)
    ensures Asserted(cl, answer)
  {
  }

  lemma StarterEndsUnobserved(cl: Client, st: Status, v: View)
    requires ClientOk(STARTER, cl, st, v) && HasEnded(cl)
    ensures !v.observed
  {
  }

  lemma DeliverKeepsCore(a: AtomicState, clients: map<Tid, Client>, starterEnds: nat, callbackEnds: nat, t: Tid)
    requires Core(a, clients, starterEnds, callbackEnds) && StatusOf(a, t).Answering?
    ensures Core(AtomicStep(a, AReturn(t)), clients[t := Received(ClientOf(clients, t), StatusOf(a, t).answer)],
                 starterEnds, callbackEnds)
    ensures Asserted(ClientOf(clients, t), StatusOf(a, t).answer)
  {
    hide ClientOk, Token, HasEnded, Received, Asserted;
    var st := StatusOf(a, t);
    var cl := Received(ClientOf(clients, t), st.answer);
    var a', clients' := AtomicStep(a, AReturn(t)), clients[t := cl];
    assert Ok(a, clients, t) && Ok(a, clients, STARTER);
    if starterEnds == 1 { StarterEndsUnobserved(ClientOf(clients, STARTER), StatusOf(a, STARTER), a.view); }
    assert Holds(a, clients, t) ==> callbackEnds == if HasEnded(ClientOf(clients, t)) then 1 else 0;
    OwnDeliver(t, ClientOf(clients, t), st.call, st.answer, a.view, starterEnds + callbackEnds >= 1);
    assert Holds(a', clients', t) == Holds(a, clients, t);
    OthersUntouched(a, a', clients, clients', t);
  }

  // ---------------------------------------------------------------- whole runs

  lemma InitiallyInv()
    ensures Inv(INITIAL)
  {
    ReadBits(FRESH);
    assert Abs(INITIAL.obj) == ATOMIC_INITIAL;
  }

  lemma StepKeepsInv(s: World, e: Event)
    requires Inv(s)
    ensures Inv(Step(s, e))
  {
    hide Core, InterleavedWord.Inv, InterleavedWord.Step, Abs, AbsThread, Read, AnswerOf, NextCall, Received, Asserted;
    var t := if e.Internal? then e.step.tid else e.tid;
    var a := Abs(s.obj);
    match e
    case Act(_, choice) =>
      var next := NextCall(t, ClientOf(s.clients, t), choice, Read(s.obj.word));
      if next.Some? && ThreadOf(s.obj, t).Idle? {
        InvokedAtomically(s.obj, t, next.value.1);
        ActKeepsCore(a, s.clients, s.starterEnds, s.callbackEnds, t, choice);
      }
    case Internal(step) =>
      if !step.Invoke? && !step.Return? {
        InterleavedWord.StepKeepsInv(s.obj, step);
        Simulates(s.obj, step);
        CommitKeepsCore(a, s.clients, s.starterEnds, s.callbackEnds, t);
      }
    case Deliver(_) =>
      if ThreadOf(s.obj, t).Ready? {
        ReturnedAtomically(s.obj, t);
        DeliverKeepsCore(a, s.clients, s.starterEnds, s.callbackEnds, t);
      }
  }

  lemma InvokedAtomically(o: State, t: Tid, c: Call)
    requires InterleavedWord.Inv(o) && ThreadOf(o, t).Idle?
    ensures var o' := InterleavedWord.Step(o, Invoke(t, c));
            InterleavedWord.Inv(o') && Abs(o') == AtomicStep(Abs(o), AInvoke(t, c))
    ensures StatusOf(Abs(o), t) == Quiet && Abs(o).view == Read(o.word)
  {
    hide Read, Bits, OneHot, Desired, InterleavedWord.Inv;
    InterleavedWord.StepKeepsInv(o, Invoke(t, c));
    AbsOfStep(o, Invoke(t, c));
  }

  lemma ReturnedAtomically(o: State, t: Tid)
    requires InterleavedWord.Inv(o) && ThreadOf(o, t).Ready?
    ensures var o' := InterleavedWord.Step(o, Return(t));
            InterleavedWord.Inv(o') && Abs(o') == AtomicStep(Abs(o), AReturn(t))
    ensures var th := ThreadOf(o, t);
            StatusOf(Abs(o), t) == Answering(th.call, AnswerOf(th.call, th.ok, th.desired))
  {
    hide Read, Bits, OneHot, AnswerOf, InterleavedWord.Inv;
    InterleavedWord.StepKeepsInv(o, Return(t));
    AbsOfStep(o, Return(t));
  }

  lemma {:induction false} ExecKeepsInv(es: seq<Event>)
    ensures Inv(Exec(es))
  {
    if es == [] {
      InitiallyInv();
    } else {
      ExecKeepsInv(es[..|es| - 1]);
      StepKeepsInv(Exec(es[..|es| - 1]), es[|es| - 1]);
    }
  }

  lemma AbsReads(o: State)
    ensures Abs(o).view == Read(o.word)
  {
  }

  /** In every run of every number of threads: no assertion of the source fails,
      End is called at most once, and exactly once when both the caller of Begin
      and the completion callback have made their check. */
  lemma EndedExactlyOnce(es: seq<Event>, t: Tid)
    ensures var s := Exec(es);
            && !s.broken
            && s.starterEnds + s.callbackEnds <= 1
            && (ClientOf(s.clients, STARTER).StarterOut? && ClientOf(s.clients, t).CallbackOut? ==>
                  && s.starterEnds + s.callbackEnds == 1
                  && Read(s.obj.word).life == Ended
                  && (s.starterEnds == 1 <==> !Read(s.obj.word).observed))
  {
    ExecKeepsInv(es);
    var s := Exec(es);
    var a := Abs(s.obj);
    AbsReads(s.obj);
    hide Exec, Abs, AbsThread, Read, InterleavedWord.Inv;
    assert Ok(a, s.clients, STARTER) && Ok(a, s.clients, t);
    assert ClientOf(s.clients, t).CallbackOut? ==> Holds(a, s.clients, t);
  }

  /** What each assertion is about, when its call is about to return: the transitions have
      been made, and an observation found the operation started. */
  lemma AssertionsHold(es: seq<Event>, t: Tid)
    ensures var s := Exec(es);
            var th, cl := ThreadOf(s.obj, t), ClientOf(s.clients, t);
            th.Ready? ==>
              var answer := AnswerOf(th.call, th.ok, th.desired);
              && (cl.StartCalled? || cl.Finishing? || cl.StarterEnding? || cl.CallbackEnding? ==> answer == Swapped(true))
              && (cl.StarterChecking? || cl.CallbackChecking? || cl.Other? ==> answer != PREMATURE)
  {
    ExecKeepsInv(es);
    var s := Exec(es);
    hide Exec, InterleavedWord.Inv;
    if ThreadOf(s.obj, t).Ready? {
      ReturnedAtomically(s.obj, t);
      assert Ok(Abs(s.obj), s.clients, t);
      hide Abs;
    }
  }

  /** Once the operation is started any free thread may compete to complete it, look at it,
      poll it or request its cancellation. */
  lemma AnyoneMayCall(s: World, t: Tid, choice: Call)
    requires t != STARTER && ClientOf(s.clients, t) == Free && ThreadOf(s.obj, t).Idle? && Read(s.obj.word).life != Created
    requires choice in {BeginComplete, Observe, RequestCancel, Peek}
    ensures var th := ThreadOf(Step(s, Act(t, choice)).obj, t); th.Busy? && th.call == choice
  {
  }

  // ---------------------------------------------------------------- both can go on to the end

  /** How far a client is from the end of its part. */
  function ToGo(cl: Client): nat {
    match cl
    case Free => 10
    case Other(_) => 11
    case StartCalled => 5
    case StartDone => 4
    case StarterChecking => 3
    case StarterMustEnd => 2
    case StarterEnding => 1
    case StarterOut(_) => 0
    case Competing => 9
    case Won => 6
    case Finishing => 5
    case InCallback => 4
    case CallbackChecking => 3
    case CallbackMustEnd => 2
    case CallbackEnding => 1
    case CallbackOut(_) => 0
  }

  predicate Out(cl: Client) {
    cl.StarterOut? || cl.CallbackOut?
  }

  /** What a client does next if it wants to see the operation through. */
  function Own(s: World, t: Tid): Event {
    match ThreadOf(s.obj, t)
    case Idle => Act(t, BeginComplete)
    case Busy(_, _, _, _, _) => Internal(OwnStep(ThreadOf(s.obj, t), t))
    case Ready(_, _, _) => Deliver(t)
  }

  /** The starter at any time, and any thread that has won. */
  predicate SeesThrough(s: World, t: Tid) {
    var cl := ClientOf(s.clients, t);
    (t == STARTER || (cl != Free && !cl.Competing? && !cl.Other?)) && !Out(cl)
  }

  function CallSteps(s: World, t: Tid): nat {
    match ThreadOf(s.obj, t)
    case Idle => 12
    case Busy(_, _, _, _, _) => 1 + StepsLeft(s.obj, t)
    case Ready(_, _, _) => 0
  }

  predicate Closer(s: World, s': World, t: Tid) {
    var cl, cl' := ClientOf(s.clients, t), ClientOf(s'.clients, t);
    && (ToGo(cl') < ToGo(cl) || (cl' == cl && CallSteps(s', t) < CallSteps(s, t)))
    && (SeesThrough(s', t) || Out(cl'))
  }

  lemma OwnActCloser(s: World, t: Tid)
    requires SeesThrough(s, t) && ThreadOf(s.obj, t).Idle? && ClientOk(t, ClientOf(s.clients, t), Quiet, Read(s.obj.word))
    ensures Closer(s, Step(s, Act(t, BeginComplete)), t)
  {
    hide InterleavedWord.Step, Read;
  }

  lemma OwnInternalCloser(s: World, t: Tid)
    requires SeesThrough(s, t) && ThreadOf(s.obj, t).Busy?
    ensures Closer(s, Step(s, Internal(OwnStep(ThreadOf(s.obj, t), t))), t)
  {
    OwnStepCounts(s.obj, t);
    hide InterleavedWord.Step, StepsLeft, NextCall, Received, Asserted;
  }

  lemma OwnDeliverCloser(s: World, t: Tid)
    requires SeesThrough(s, t) && ThreadOf(s.obj, t).Ready?
    requires var th := ThreadOf(s.obj, t);
             ClientOk(t, ClientOf(s.clients, t), Answering(th.call, AnswerOf(th.call, th.ok, th.desired)), Read(s.obj.word))
    ensures Closer(s, Step(s, Deliver(t)), t)
  {
    hide InterleavedWord.Step, Read, AnswerOf, Asserted;
  }

  /** Each own step comes closer to the end: within a call, or from one call to the next. */
  lemma OwnStepComesCloser(s: World, t: Tid)
    requires Inv(s) && SeesThrough(s, t)
    ensures Closer(s, Step(s, Own(s, t)), t)
  {
    AbsReads(s.obj);
    assert Ok(Abs(s.obj), s.clients, t);
    AbsOfThread(s.obj, t);
    hide Abs, InterleavedWord.Inv, OneHolder, CountsOk, Matches, Expected, Desired, Mask, Update, ClientOk, Closer, Step, SeesThrough;
    match ThreadOf(s.obj, t)
    case Idle => OwnActCloser(s, t);
    case Busy(_, _, _, _, _) => OwnInternalCloser(s, t);
    case Ready(_, _, _) => OwnDeliverCloser(s, t);
  }

  lemma AbsOfThread(o: State, t: Tid)
    ensures StatusOf(Abs(o), t) == AbsThread(ThreadOf(o, t))
  {
  }

  /** Nobody can be kept from the end: the starter at any time, and any thread that has won,
      make their check and end the operation if it falls to them, left alone. */
  lemma {:induction false} SeenThrough(es: seq<Event>, t: Tid) returns (more: seq<Event>)
    requires SeesThrough(Exec(es), t)
    ensures Out(ClientOf(Exec(es + more).clients, t))
    decreases ToGo(ClientOf(Exec(es).clients, t)), CallSteps(Exec(es), t)
  {
    var s := Exec(es);
    var e := Own(s, t);
    ExecKeepsInv(es);
    OwnStepComesCloser(s, t);
    assert (es + [e])[..|es|] == es;
    assert Exec(es + [e]) == Step(s, e);
    hide Step, Inv, SeesThrough, Out;
    if Out(ClientOf(Exec(es + [e]).clients, t)) {
      more := [e];
    } else {
      more := SeenThrough(es + [e], t);
      assert es + [e] + more == es + ([e] + more);
      more := [e] + more;
    }
  }
}
