/** Any number of threads running the load / test / compare-and-swap loop on one
    lifecycle word, and the proof that the word behaves as the atomic object. */
module InterleavedWord {
  import opened Threads
  import opened LifecycleWord

  // ---------------------------------------------------------------- the threads

  datatype Pc = AtLoad | AtTest(check: Word) | AtSwap(check: Word)

  /** `failures` counts the swaps of the current loop that found a changed word. */
  datatype Thread =
    | Idle
    | Busy(call: Call, second: bool, desired: Word, pc: Pc, failures: nat)
    | Ready(call: Call, ok: bool, desired: Word)

  datatype Record = Invoked(tid: Tid, call: Call) | Answered(tid: Tid, call: Call, answer: Answer)

  datatype State = State(word: Word, threads: map<Tid, Thread>, history: seq<Record>)

  /** `spurious` is the licence of a weak compare-and-swap to fail without cause. */
  datatype Event =
    | Invoke(tid: Tid, call: Call)
    | Load(tid: Tid)
    | Test(tid: Tid)
    | Swap(tid: Tid, spurious: bool)
    | Return(tid: Tid)

  const INITIAL := State(Bits(FRESH), map[], [])

  function ThreadOf(s: State, t: Tid): Thread {
    if t in s.threads then s.threads[t] else Idle
  }

  function Set(s: State, t: Tid, th: Thread): State {
    s.(threads := s.threads[t := th])
  }

  function AfterLoad(th: Thread, w: Word): Thread
    requires th.Busy?
  {
    if th.call == Peek then Ready(Peek, true, w) else th.(pc := AtTest(w))
  }

  function AfterTest(th: Thread, check: Word): Thread
    requires th.Busy?
  {
    if Matches(check, Expected(th.call, th.second), Mask(th.call)) then th.(pc := AtSwap(check))
    else if th.call == Observe && !th.second && check & COMPLETING != 0 then
      Busy(Observe, true, check | OBSERVED, AtLoad, 0)
    else Ready(th.call, false, check)
  }

  /** One step; an event that is not enabled leaves the state as it is. */
  function Step(s: State, e: Event): State {
    var th := ThreadOf(s, e.tid);
    match e
    case Invoke(t, c) =>
      if th.Idle? then
        Set(s, t, Busy(c, false, Desired(c), AtLoad, 0)).(history := s.history + [Invoked(t, c)])
      else s
    case Load(t) =>
      if th.Busy? && th.pc.AtLoad? then Set(s, t, AfterLoad(th, s.word)) else s
    case Test(t) =>
      if th.Busy? && th.pc.AtTest? then Set(s, t, AfterTest(th, th.pc.check)) else s
    case Swap(t, spurious) =>
      if th.Busy? && th.pc.AtSwap? then
        if s.word == th.pc.check && !spurious then
          Set(s, t, Ready(th.call, true, th.desired)).(word := Update(th.desired, th.pc.check, Mask(th.call)))
        else
          Set(s, t, th.(pc := AtTest(s.word), failures := th.failures + if s.word == th.pc.check then 0 else 1))
      else s
    case Return(t) =>
      if th.Ready? then
        Set(s, t, Idle).(history := s.history + [Answered(t, th.call, AnswerOf(th.call, th.ok, th.desired))])
      else s
  }

  /** The state after a whole run. */
  function Exec(es: seq<Event>): State {
    if es == [] then INITIAL else Step(Exec(es[..|es| - 1]), es[|es| - 1])
  }

  // ---------------------------------------------------------------- the atomic machine

  datatype Status = Quiet | Pending(call: Call) | Answering(call: Call, answer: Answer)

  datatype AtomicState = AtomicState(view: View, status: map<Tid, Status>, history: seq<Record>)

  /** A call is invoked, takes effect in one instant, and returns its answer. */
  datatype AtomicEvent = AInvoke(tid: Tid, call: Call) | Commit(tid: Tid) | AReturn(tid: Tid)

  const ATOMIC_INITIAL := AtomicState(FRESH, map[], [])

  function StatusOf(a: AtomicState, t: Tid): Status {
    if t in a.status then a.status[t] else Quiet
  }

  function AtomicStep(a: AtomicState, e: AtomicEvent): AtomicState {
    var st := StatusOf(a, e.tid);
    match e
    case AInvoke(t, c) =>
      if st.Quiet? then a.(status := a.status[t := Pending(c)], history := a.history + [Invoked(t, c)]) else a
    case Commit(t) =>
      if st.Pending? then
        var o := Atomic(st.call, a.view);
        a.(view := o.view, status := a.status[t := Answering(st.call, o.answer)])
      else a
    case AReturn(t) =>
      if st.Answering? then
        a.(status := a.status[t := Quiet], history := a.history + [Answered(t, st.call, st.answer)])
      else a
  }

  function AtomicExec(es: seq<AtomicEvent>): AtomicState {
    if es == [] then ATOMIC_INITIAL else AtomicStep(AtomicExec(es[..|es| - 1]), es[|es| - 1])
  }

  // ---------------------------------------------------------------- abstraction

  /** A thread whose loaded word is going to fail the test has its answer already. */
  function AbsThread(th: Thread): Status {
    match th
    case Idle => Quiet
    case Ready(c, ok, d) => Answering(c, AnswerOf(c, ok, d))
    case Busy(c, _, _, pc, _) =>
      if pc.AtTest? then
        var next := AfterTest(th, pc.check);
        if next.Ready? then Answering(c, AnswerOf(c, false, pc.check)) else Pending(c)
      else Pending(c)
  }

  function Abs(s: State): AtomicState {
    AtomicState(Read(s.word), map t | t in s.threads :: AbsThread(s.threads[t]), s.history)
  }

  // ---------------------------------------------------------------- the invariant

  /** Genuine failures one loop can suffer: an operation on the lifecycle sees
      two flags appear and one lifecycle move, a cancel request sees all six. */
  function FailureBound(c: Call): nat {
    if c == RequestCancel then 6 else 3
  }

  function FailuresSoFar(c: Call, second: bool, check: Word): nat {
    if c == RequestCancel then Rank(Read(check))
    else Flags(Read(check)) + (if Matches(check, Expected(c, second), Mask(c)) then 0 else 1)
  }

  predicate CheckOk(th: Thread, check: Word, w: Word)
    requires th.Busy?
  {
    && OneHot(check)
    && Precedes(Read(check), Read(w))
    && th.failures <= FailuresSoFar(th.call, th.second, check)
    && (th.second ==> Stage(Read(check).life) >= 2)
  }

  predicate ThreadOk(th: Thread, w: Word) {
    th.Busy? ==>
      && (th.second ==> th.call == Observe && SecondDesired(th.desired, Read(w)) && Stage(Read(w).life) >= 2)
      && (!th.second ==> th.desired == Desired(th.call))
      && (th.call == Peek ==> th.pc.AtLoad?)
      && match th.pc
         case AtLoad => th.failures == 0
         case AtTest(check) => CheckOk(th, check, w)
         case AtSwap(check) => CheckOk(th, check, w) && Matches(check, Expected(th.call, th.second), Mask(th.call))
  }

  ghost predicate Inv(s: State) {
    OneHot(s.word) && forall t :: t in s.threads ==> ThreadOk(s.threads[t], s.word)
  }

  // ---------------------------------------------------------------- one step

  lemma ThreadOkLater(th: Thread, w: Word, w': Word)
    requires ThreadOk(th, w) && OneHot(w) && OneHot(w') && Precedes(Read(w), Read(w'))
    ensures ThreadOk(th, w')
  {
    hide Read, Bits, OneHot, Desired, Expected, Mask, Matches, FailuresSoFar;
  }

  lemma LaterCountsMore(a: View, b: View)
    requires Precedes(a, b) && a != b
    ensures Rank(a) < Rank(b) && Flags(a) <= Flags(b) && (a.life == b.life ==> Flags(a) < Flags(b))
  {
  }

  lemma OneMoreFailure(th: Thread, check: Word, w: Word)
    requires th.Busy? && th.call != Peek && CheckOk(th, check, w) && OneHot(w) && w != check
    requires Matches(check, Expected(th.call, th.second), Mask(th.call))
    ensures th.failures + 1 <= FailuresSoFar(th.call, th.second, w)
  {
    DifferentWords(check, w);
    MatchesMeansSameStage(th.call, th.second, check);
    MatchesMeansSameStage(th.call, th.second, w);
    LifeBitsDiffer(Read(check).life, Read(w).life);
    hide Read, Bits, OneHot, Matches, Expected, Mask, LifeBit, Rank, Flags, Precedes;
    LaterCountsMore(Read(check), Read(w));
  }

  lemma DifferentWords(a: Word, b: Word)
    requires OneHot(a) && OneHot(b) && a != b
    ensures Read(a) != Read(b)
  {
    hide Read, Bits;
  }

  lemma LifeBitsDiffer(a: Life, b: Life)
    ensures LifeBit(a) == LifeBit(b) ==> a == b
  {
  }

  /** The call that Swap(t) completes changes the word as the atomic object says. */
  lemma SwapSucceeds(s: State, t: Tid)
    requires Inv(s) && ThreadOf(s, t).Busy? && ThreadOf(s, t).pc == AtSwap(s.word)
    ensures var th := ThreadOf(s, t);
            var o := Atomic(th.call, Read(s.word));
            && Update(th.desired, s.word, Mask(th.call)) == Bits(o.view)
            && Read(Bits(o.view)) == o.view && OneHot(Bits(o.view))
            && AnswerOf(th.call, true, th.desired) == o.answer
            && (Bits(o.view) == s.word || Moves(Read(s.word), o.view))
            && Precedes(Read(s.word), o.view)
  {
    var th := ThreadOf(s, t);
    SwapTakesEffect(th.call, th.second, th.desired, s.word);
    AtomicMovesOnce(th.call, Read(s.word));
    ReadBits(Atomic(th.call, Read(s.word)).view);
  }

  /** Whatever a thread reads is either a match, a reason to swap a second time,
      or the final answer of a call that takes effect at the read. */
  lemma ReadDecides(th: Thread, w: Word)
    requires th.Busy? && th.call != Peek && ThreadOk(th, w) && OneHot(w)
    requires th.second ==> Stage(Read(w).life) >= 2
    ensures AfterTest(th, w).Ready? ==>
              Atomic(th.call, Read(w)) == Outcome(Read(w), AnswerOf(th.call, false, w))
  {
    if AfterTest(th, w).Ready? { FailedSwapReads(th.call, th.second, w); }
  }

  lemma PeekReads(w: Word)
    ensures Atomic(Peek, Read(w)) == Outcome(Read(w), AnswerOf(Peek, true, w))
  {
  }

  lemma WordMoves(s: State, e: Event)
    requires Inv(s)
    ensures var s' := Step(s, e);
            OneHot(s'.word) && Precedes(Read(s.word), Read(s'.word)) &&
            (s'.word == s.word || Moves(Read(s.word), Read(s'.word)))
  {
    hide Read, Bits, OneHot, Desired, Expected, Mask, Matches, FailuresSoFar, Atomic, AnswerOf, Update, Rank, Moves;
    var th := ThreadOf(s, e.tid);
    if e.Swap? && th.Busy? && th.pc.AtSwap? && s.word == th.pc.check && !e.spurious { SwapSucceeds(s, e.tid); }
  }

  lemma SteppedThreadOk(s: State, e: Event)
    requires Inv(s)
    ensures Step(s, e) != s ==> ThreadOk(ThreadOf(Step(s, e), e.tid), Step(s, e).word)
  {
    hide Read, Bits, OneHot, Desired, Expected, Mask, Matches, FailuresSoFar, Atomic, AnswerOf, Update, Rank;
    var th := ThreadOf(s, e.tid);
    if th.Busy? && th.pc.AtTest? && th.pc.check & COMPLETING != 0 { ReadForSecondSwap(th.pc.check); }
    if th.Busy? && th.pc.AtSwap? && s.word != th.pc.check { OneMoreFailure(th, th.pc.check, s.word); }
  }

  lemma StepKeepsInv(s: State, e: Event)
    requires Inv(s)
    ensures Inv(Step(s, e))
    ensures Step(s, e).word == s.word || Moves(Read(s.word), Read(Step(s, e).word))
  {
    WordMoves(s, e);
    SteppedThreadOk(s, e);
    OthersStand(s, e);
    hide *;
    StepSuffices(s, Step(s, e), e.tid);
  }

  lemma OthersStand(s: State, e: Event)
    ensures Step(s, e) == s || Step(s, e).threads == s.threads[e.tid := ThreadOf(Step(s, e), e.tid)]
  {
    hide Read, Bits, AfterTest, AfterLoad, Update, Mask, AnswerOf, Desired;
  }

  lemma StepSuffices(s: State, s': State, t: Tid)
    requires Inv(s) && OneHot(s'.word) && Precedes(Read(s.word), Read(s'.word))
    requires s' == s || (s'.threads == s.threads[t := ThreadOf(s', t)] && ThreadOk(ThreadOf(s', t), s'.word))
    ensures Inv(s')
  {
    hide Read, Bits, OneHot, ThreadOk, Precedes;
    forall u | u in s'.threads ensures ThreadOk(s'.threads[u], s'.word) {
      if u in s.threads { ThreadOkLater(s.threads[u], s.word, s'.word); }
    }
  }

  function AtomicCounterpart(e: Event): AtomicEvent {
    match e
    case Invoke(t, c) => AInvoke(t, c)
    case Load(t) => Commit(t)
    case Test(t) => Commit(t)
    case Swap(t, _) => Commit(t)
    case Return(t) => AReturn(t)
  }

  lemma AbsOfStep(s: State, e: Event)
    ensures StatusOf(Abs(s), e.tid) == AbsThread(ThreadOf(s, e.tid))
    ensures var s' := Step(s, e);
            s' == s ||
            Abs(s') == AtomicState(Read(s'.word), Abs(s).status[e.tid := AbsThread(ThreadOf(s', e.tid))], s'.history)
    ensures e.tid in s.threads ==> Abs(s).status[e.tid := AbsThread(s.threads[e.tid])] == Abs(s).status
  {
    assert AbsThread(Idle) == Quiet;
    OthersStand(s, e);
    hide AbsThread, Read, Bits, Step;
  }

  lemma TestIsInvisible(th: Thread)
    requires th.Busy? && th.pc.AtTest?
    ensures AbsThread(AfterTest(th, th.pc.check)) == AbsThread(th)
  {
    hide Expected, Mask, Matches, AnswerOf;
  }

  /** Forward simulation: a step of the loop is invisible, or is the one atomic
      step of the same thread. */
  lemma Simulates(s: State, e: Event)
    requires Inv(s)
    ensures Abs(Step(s, e)) == Abs(s) || Abs(Step(s, e)) == AtomicStep(Abs(s), AtomicCounterpart(e))
  {
    hide Read, Bits, OneHot, Desired, Expected, Mask, Matches, FailuresSoFar, Atomic, AnswerOf, Update, Rank;
    var th := ThreadOf(s, e.tid);
    AbsOfStep(s, e);
    if Step(s, e) != s && th.Busy? {
      match th.pc
      case AtLoad => if th.call == Peek { PeekReads(s.word); } else { ReadDecides(th, s.word); }
      case AtTest(_) => TestIsInvisible(th);
      case AtSwap(check) =>
        if s.word == check && !e.spurious { SwapSucceeds(s, e.tid); } else { ReadDecides(th, s.word); }
    }
  }

  // ---------------------------------------------------------------- whole runs

  lemma {:induction false} ExecKeepsInv(es: seq<Event>)
    ensures Inv(Exec(es))
  {
    if es == [] {
      ReadBits(FRESH);
    } else {
      ExecKeepsInv(es[..|es| - 1]);
      StepKeepsInv(Exec(es[..|es| - 1]), es[|es| - 1]);
    }
  }

  /** Every run of the loops has an atomic run with the same invocations and
      answers in the same order, each call taking effect in between. */
  lemma {:induction false} Linearizable(es: seq<Event>) returns (aes: seq<AtomicEvent>)
    ensures AtomicExec(aes) == Abs(Exec(es))
    ensures AtomicExec(aes).history == Exec(es).history
  {
    if es == [] {
      ReadBits(FRESH);
      aes := [];
    } else {
      var before := es[..|es| - 1];
      var e := es[|es| - 1];
      var prefix := Linearizable(before);
      ExecKeepsInv(before);
      Simulates(Exec(before), e);
      if Abs(Exec(es)) == Abs(Exec(before)) {
        aes := prefix;
      } else {
        aes := prefix + [AtomicCounterpart(e)];
        assert aes[..|aes| - 1] == prefix;
      }
    }
  }

  /** No loop fails more often than the word can change under it. */
  lemma RetryBound(es: seq<Event>, t: Tid)
    ensures var th := ThreadOf(Exec(es), t);
            th.Busy? ==> th.failures <= FailureBound(th.call) <= 6
  {
    hide Exec, Read, Bits, OneHot, Matches, Precedes, SecondDesired;
    ExecKeepsInv(es);
  }

  lemma {:induction false} RunAdvances(es: seq<Event>, i: nat)
    requires i <= |es|
    ensures Precedes(Read(Exec(es[..i]).word), Read(Exec(es).word))
    decreases |es|
  {
    if i == |es| {
      assert es[..i] == es;
    } else {
      var before := es[..|es| - 1];
      ExecKeepsInv(before);
      WordMoves(Exec(before), es[|es| - 1]);
      assert Exec(es) == Step(Exec(before), es[|es| - 1]);
      assert before[..i] == es[..i];
      hide Exec, Step, Read;
      RunAdvances(before, i);
    }
  }

  /** No ABA: between two equal values the word never held another. */
  lemma WordNeverRecurs(es: seq<Event>, i: nat, j: nat)
    requires i <= j <= |es|
    requires Exec(es[..i]).word == Exec(es).word
    ensures Exec(es[..j]).word == Exec(es).word
  {
    hide Read, Bits, Exec;
    RunAdvances(es, j);
    RunAdvances(es[..j], i);
    assert es[..j][..i] == es[..i];
    ExecKeepsInv(es[..j]);
    ExecKeepsInv(es);
    var a, b := Read(Exec(es[..j]).word), Read(Exec(es).word);
    assert a == b;
    assert Exec(es[..j]).word == Bits(a) && Exec(es).word == Bits(b);
  }

  /** How often the word changed value in a run. */
  function Changes(es: seq<Event>): nat {
    if es == [] then 0
    else Changes(es[..|es| - 1]) + if Exec(es).word == Exec(es[..|es| - 1]).word then 0 else 1
  }

  lemma {:induction false} WordChangesAtMostSixTimes(es: seq<Event>)
    ensures Changes(es) == Rank(Read(Exec(es).word)) <= 6
  {
    hide Read, Bits, Inv, Step;
    if es == [] {
      ReadBits(FRESH);
    } else {
      var before := es[..|es| - 1];
      WordChangesAtMostSixTimes(before);
      ExecKeepsInv(before);
      StepKeepsInv(Exec(before), es[|es| - 1]);
      if Exec(es).word != Exec(before).word { MovesAdvances(Read(Exec(before).word), Read(Exec(es).word)); }
    }
  }

  // ---------------------------------------------------------------- stable verdicts

  /** The answer of an observation before Start, where the source asserts. */
  const PREMATURE := Verdict(false, true)

  predicate SoundAnswer(answer: Answer, v: View) {
    answer.Verdict? && answer != PREMATURE ==>
      && (answer.synchronous ==> answer.completed && !v.observed && Stage(v.life) >= 3)
      && (!answer.synchronous ==> v.observed)
      && (answer.completed ==> Stage(v.life) >= 3)
  }

  ghost predicate VerdictInv(a: AtomicState) {
    && (a.view.observed ==> a.view.life != Created)
    && (forall t :: t in a.status && a.status[t].Answering? ==> SoundAnswer(a.status[t].answer, a.view))
    && (forall i :: 0 <= i < |a.history| && a.history[i].Answered? ==> SoundAnswer(a.history[i].answer, a.view))
  }

  lemma {:induction false} VerdictsSound(aes: seq<AtomicEvent>)
    ensures VerdictInv(AtomicExec(aes))
  {
    if aes != [] {
      VerdictsSound(aes[..|aes| - 1]);
      var a := AtomicExec(aes[..|aes| - 1]);
      var e := aes[|aes| - 1];
      if e.Commit? && StatusOf(a, e.tid).Pending? { AtomicMovesOnce(StatusOf(a, e.tid).call, a.view); }
    }
  }

  /** Any two observations of any run, by whichever threads, give the same verdict
      on synchronous completion; and once one says completed, the operation is. */
  lemma VerdictsAgree(es: seq<Event>, i: nat, j: nat)
    requires i < |Exec(es).history| && j < |Exec(es).history|
    requires Exec(es).history[i].Answered? && Exec(es).history[i].call == Observe
    requires Exec(es).history[j].Answered? && Exec(es).history[j].call == Observe
    requires Exec(es).history[i].answer != PREMATURE && Exec(es).history[j].answer != PREMATURE
    ensures Exec(es).history[i].answer.Verdict? && Exec(es).history[j].answer.Verdict?
    ensures Exec(es).history[i].answer.synchronous == Exec(es).history[j].answer.synchronous
    ensures Exec(es).history[i].answer.synchronous == !Read(Exec(es).word).observed
    ensures Exec(es).history[i].answer.completed ==> Read(Exec(es).word).life in {Completed, Ended}
  {
    var aes := Linearizable(es);
    VerdictsSound(aes);
    AnswersFitCalls(es);
  }

  predicate Fits(c: Call, answer: Answer) {
    match c
    case Observe => answer.Verdict?
    case Peek => answer.Peeked?
    case _ => answer.Swapped?
  }

  lemma {:induction false} AnswersFitCalls(es: seq<Event>)
    ensures forall i :: 0 <= i < |Exec(es).history| && Exec(es).history[i].Answered? ==>
              Fits(Exec(es).history[i].call, Exec(es).history[i].answer)
  {
    if es != [] { AnswersFitCalls(es[..|es| - 1]); }
  }

  /** A swap fails without cause or because the word has changed since it was loaded; the
      thread looks again at the word it found, and only the latter counts. */
  lemma LostSwapCounts(s: State, t: Tid, spurious: bool)
    requires ThreadOf(s, t).Busy? && ThreadOf(s, t).pc.AtSwap? && (spurious || s.word != ThreadOf(s, t).pc.check)
    ensures var th, th' := ThreadOf(s, t), ThreadOf(Step(s, Swap(t, spurious)), t);
            && Step(s, Swap(t, spurious)).word == s.word && th'.Busy? && th'.pc == AtTest(s.word) && th'.call == th.call
            && (th'.failures > th.failures <==> s.word != th.pc.check)
  {
  }

  // ---------------------------------------------------------------- every call returns

  /** The next step of a thread inside a call; its swap does not fail without cause. */
  function OwnStep(th: Thread, t: Tid): Event
    requires th.Busy?
  {
    match th.pc
    case AtLoad => Load(t)
    case AtTest(_) => Test(t)
    case AtSwap(_) => Swap(t, false)
  }

  /** How many steps a thread has left in its call if no other takes any: a second look at
      the word at most, and for an observation that finds the operation completing
      the same once more. */
  function StepsLeft(s: State, t: Tid): nat {
    var th := ThreadOf(s, t);
    if !th.Busy? then 0
    else (if th.second || th.call != Observe then 0 else 5) +
         match th.pc
         case AtLoad => 3
         case AtTest(check) => if check == s.word then 2 else 4
         case AtSwap(check) => if check == s.word then 1 else 3
  }

  lemma OwnStepCounts(s: State, t: Tid)
    requires ThreadOf(s, t).Busy?
    ensures var s' := Step(s, OwnStep(ThreadOf(s, t), t));
            StepsLeft(s', t) < StepsLeft(s, t) && (ThreadOf(s', t).Busy? || ThreadOf(s', t).Ready?)
  {
    hide Update, Matches, Expected, Desired, Mask;
  }

  function OwnSteps(s: State, t: Tid, n: nat): State
    decreases n
  {
    if n == 0 || !ThreadOf(s, t).Busy? then s else OwnSteps(Step(s, OwnStep(ThreadOf(s, t), t)), t, n - 1)
  }

  /** Every call returns: left alone a thread has its answer after nine steps. */
  lemma {:induction false} AnswersAlone(s: State, t: Tid, n: nat)
    requires ThreadOf(s, t).Busy? && n >= StepsLeft(s, t)
    ensures ThreadOf(OwnSteps(s, t, n), t).Ready? && StepsLeft(s, t) <= 9
    decreases n
  {
    hide Step, Read;
    OwnStepCounts(s, t);
    var s' := Step(s, OwnStep(ThreadOf(s, t), t));
    if ThreadOf(s', t).Busy? { AnswersAlone(s', t, n - 1); }
  }
}
