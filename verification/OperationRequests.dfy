/** What a request asks of an operation is what the threads of OperationRaces make of it:
    where the winner's error, the cancels and the children come from in a run, and what
    each request does that is run by one thread alone. */
module OperationRequests {
  import opened Threads
  import opened LifecycleWord
  import opened ErrorCodes
  import opened OperationRaces

  // ---------------------------------------------------------------- whose error it is

  predicate Attaches(at: ListPc) {
    at.AttachLock? || at.AttachCheckComplete? || at.AttachCheckCancel? || at.AttachPush?
  }

  predicate Detaches(at: ListPc) {
    at.DetachLock? || at.DetachRemove? || at.DetachUnlock?
  }

  /** Whatever thread t is doing, it was asked to. */
  predicate Asked(es: seq<Event>, t: Tid, pc: Pc) {
    match pc
    case Idle => true
    case Trying(error) => Begin(t, TryComplete(error)) in es
    case Finishing(_) => true
    case Cancelling(force, _) => Begin(t, Request.Cancel(force)) in es
    case Listing(c, at) => (Attaches(at) ==> Begin(t, Attach(c)) in es) && (Detaches(at) ==> Begin(t, Detach(c)) in es)
  }

  /** t was asked to complete with this error, or to cancel and that completes. */
  ghost predicate WonFor(es: seq<Event>, t: Tid, error: Value, skip: bool) {
    || Begin(t, TryComplete(error)) in es
    || (error == OPERATION_CANCELED && exists force :: (force || !skip) && Begin(t, Request.Cancel(force)) in es)
  }

  ghost predicate Provenance(es: seq<Event>, s: State) {
    && (forall t :: t in s.threads ==> Asked(es, t, s.threads[t]))
    && (s.done.winner.Some? <==> s.done.owner.Some?)
    && (s.done.owner.Some? ==> WonFor(es, s.done.owner.value, s.done.winner.value, s.skip))
  }

  /** A step that has nothing to do with who wins. */
  lemma OthersKeepProvenance(es: seq<Event>, s: State, s': State, t: Tid)
    requires Provenance(es, s) && Asked(es, t, PcOf(s', t))
    requires s'.threads == s.threads[t := PcOf(s', t)] && s'.skip == s.skip
    requires s'.done.winner == s.done.winner && s'.done.owner == s.done.owner
    ensures Provenance(es, s')
  {
    hide Asked, WonFor;
  }

  lemma TryKeepsProvenance(es: seq<Event>, s: State, t: Tid, error: Value, onWin: FinishPc)
    requires Provenance(es, s) && WonFor(es, t, error, s.skip)
    ensures Provenance(es, OperationRaces.Completing(s, t, error, onWin))
  {
    hide Asked, WonFor;
    var s' := OperationRaces.Completing(s, t, error, onWin);
    assert Asked(es, t, Idle) && Asked(es, t, Finishing(onWin)) by { NothingAsked(es, t, onWin); }
    assert PcOf(s', t) == Idle || PcOf(s', t) == Finishing(onWin);
  }

  lemma NothingAsked(es: seq<Event>, t: Tid, at: FinishPc)
    ensures Asked(es, t, Idle) && Asked(es, t, Finishing(at))
  {
  }

  lemma GoKeepsProvenance(es: seq<Event>, s: State, t: Tid)
    requires Provenance(es, s)
    ensures Provenance(es, Run(s, t))
  {
    hide OperationRaces.Completing, RunFinish, RunList, SweepStep, WonFor, Provenance;
    var pc := PcOf(s, t);
    PcWasAsked(es, s, t);
    match pc
    case Idle =>
    case Trying(error) =>
      TriedFor(es, t, error, s.skip);
      TryKeepsProvenance(es, s, t, error, Assigning(error));
    case Finishing(at) => FinishKeepsProvenance(es, s, t, at);
    case Cancelling(force, at) =>
      if at.Deciding? && (force || !s.skip) {
        CancelledFor(es, t, force, s.skip);
        TryKeepsProvenance(es, s, t, OPERATION_CANCELED, CancelHook);
      } else {
        OthersKeepProvenance(es, s, RunCancel(s, t, force, at), t);
      }
    case Listing(c, at) => ListKeepsProvenance(es, s, t, c, at);
  }

  lemma PcWasAsked(es: seq<Event>, s: State, t: Tid)
    requires Provenance(es, s)
    ensures Asked(es, t, PcOf(s, t))
  {
  }

  lemma TriedFor(es: seq<Event>, t: Tid, error: Value, skip: bool)
    requires Begin(t, TryComplete(error)) in es
    ensures WonFor(es, t, error, skip)
  {
  }

  lemma CancelledFor(es: seq<Event>, t: Tid, force: bool, skip: bool)
    requires Begin(t, Request.Cancel(force)) in es && (force || !skip)
    ensures WonFor(es, t, OPERATION_CANCELED, skip)
  {
  }

  lemma FinishKeepsProvenance(es: seq<Event>, s: State, t: Tid, at: FinishPc)
    requires Provenance(es, s) && PcOf(s, t) == Finishing(at)
    ensures Provenance(es, RunFinish(s, t, at))
  {
    hide Provenance, WonFor;
    OthersKeepProvenance(es, s, RunFinish(s, t, at), t);
  }

  lemma ListKeepsProvenance(es: seq<Event>, s: State, t: Tid, c: Child, at: ListPc)
    requires Provenance(es, s) && PcOf(s, t) == Listing(c, at) && Asked(es, t, PcOf(s, t))
    ensures Provenance(es, RunList(s, t, c, at))
  {
    hide Provenance, WonFor, Without;
    OthersKeepProvenance(es, s, RunList(s, t, c, at), t);
  }

  lemma StepKeepsProvenance(es: seq<Event>, s: State, e: Event)
    requires Provenance(es, s) && e in es
    ensures Provenance(es, Step(s, e))
  {
    hide Provenance, WonFor, Run;
    match e
    case Begin(t, request) => if PcOf(s, t).Idle? { OthersKeepProvenance(es, s, Step(s, e), t); }
    case Go(t) => GoKeepsProvenance(es, s, t);
    case _ => OutsideKeepsProvenance(es, s, e);
  }

  lemma OutsideKeepsProvenance(es: seq<Event>, s: State, e: Event)
    requires Provenance(es, s) && (e.Word? || e.ReadError? || e.Expire?)
    ensures Provenance(es, Step(s, e))
  {
    hide Asked, WonFor;
  }

  lemma {:induction false} ExecKeepsProvenance(skip: bool, hasCallback: bool, es: seq<Event>, all: seq<Event>)
    requires forall e :: e in es ==> e in all
    ensures Provenance(all, Exec(Initial(skip, hasCallback), es)) && Exec(Initial(skip, hasCallback), es).skip == skip
    decreases |es|
  {
    ExecKeepsInv(skip, hasCallback, es);
    hide Step, Provenance, CompletionInv, ChildInv;
    if es == [] {
      assert Provenance(all, Initial(skip, hasCallback)) by { NothingYet(skip, hasCallback, all); }
    } else {
      var before := es[..|es| - 1];
      ExecKeepsProvenance(skip, hasCallback, before, all);
      StepKeepsProvenance(all, Exec(Initial(skip, hasCallback), before), es[|es| - 1]);
    }
  }

  lemma NothingYet(skip: bool, hasCallback: bool, all: seq<Event>)
    ensures Provenance(all, Initial(skip, hasCallback))
  {
  }

  /** The error of a completed operation is the one that some TryComplete was called
      with, or the cancellation, of a Cancel that completes. */
  lemma ErrorWasAskedFor(skip: bool, hasCallback: bool, es: seq<Event>)
    ensures var s := Exec(Initial(skip, hasCallback), es);
            s.op.view.life in {Completed, Ended} ==>
              s.done.owner.Some? && s.done.winner == Some(s.op.error.value) && WonFor(es, s.done.owner.value, s.op.error.value, skip)
  {
    ExecKeepsProvenance(skip, hasCallback, es, es);
    ExecKeepsInv(skip, hasCallback, es);
    hide Exec, Initial, ChildInv, WonFor;
  }

  // ---------------------------------------------------------------- whose children they are

  /** Who is listed has been attached, and not detached since. */
  ghost predicate ListedAreOwed(s: State) {
    forall c :: c in s.kids.children ==> c in s.family.owed
  }

  lemma ListKeepsOwed(s: State, t: Tid, c: Child, at: ListPc)
    requires ListedAreOwed(s) && PcOf(s, t) == Listing(c, at)
    ensures ListedAreOwed(RunList(s, t, c, at))
  {
  }

  lemma StepKeepsOwed(s: State, e: Event)
    requires ListedAreOwed(s)
    ensures ListedAreOwed(Step(s, e))
  {
    hide ListStep, FinishStep, StartComplete;
    if e.Go? {
      match PcOf(s, e.tid)
      case Listing(c, at) => ListKeepsOwed(s, e.tid, c, at);
      case _ =>
    }
  }

  lemma {:induction false} ExecKeepsOwed(skip: bool, hasCallback: bool, es: seq<Event>)
    ensures ListedAreOwed(Exec(Initial(skip, hasCallback), es))
  {
    hide Step;
    if es != [] {
      ExecKeepsOwed(skip, hasCallback, es[..|es| - 1]);
      hide ListedAreOwed;
      StepKeepsOwed(Exec(Initial(skip, hasCallback), es[..|es| - 1]), es[|es| - 1]);
    }
  }

  /** The children that a sweep has taken along so far. */
  function Taken(at: CancelPc): seq<Child> {
    match at
    case Sweeping(_, found) => found
    case SweepClear(found) => found
    case SweepUnlock(found) => found
    case Recursing(rest) => rest
    case _ => []
  }

  /** t neither attaches c nor takes it along. */
  predicate Avoids(pc: Pc, c: Child) {
    !(pc.Listing? && Attaches(pc.list) && pc.child == c) && (pc.Cancelling? ==> c !in Taken(pc.cancel))
  }

  ghost predicate Absent(s: State, c: Child) {
    && c !in s.family.owed && c !in s.kids.children && c !in s.family.snapshot && c !in s.family.cancelCalls
    && forall t :: t in s.threads ==> Avoids(s.threads[t], c)
  }

  predicate StaysAbsent(s: State, s': State, t: Tid, c: Child) {
    && c !in s'.family.owed && c !in s'.kids.children && c !in s'.family.snapshot && c !in s'.family.cancelCalls
    && s'.threads == s.threads[t := PcOf(s', t)] && Avoids(PcOf(s', t), c)
  }

  lemma SweepStaysAbsent(s: State, t: Tid, force: bool, at: CancelPc, c: Child)
    requires Absent(s, c) && PcOf(s, t) == Cancelling(force, at) && !at.Marking? && !at.Deciding?
    ensures StaysAbsent(s, RunCancel(s, t, force, at), t, c)
  {
    assert Avoids(PcOf(s, t), c);
  }

  lemma MarkStaysAbsent(s: State, t: Tid, force: bool, c: Child)
    requires Absent(s, c) && PcOf(s, t) == Cancelling(force, Marking)
    ensures StaysAbsent(s, RunCancel(s, t, force, Marking), t, c)
  {
  }

  lemma TryStaysAbsent(s: State, t: Tid, error: Value, onWin: FinishPc, c: Child)
    requires Absent(s, c)
    ensures StaysAbsent(s, OperationRaces.Completing(s, t, error, onWin), t, c)
  {
  }

  lemma DecideStaysAbsent(s: State, t: Tid, force: bool, c: Child)
    requires Absent(s, c)
    ensures StaysAbsent(s, RunCancel(s, t, force, Deciding), t, c)
  {
    hide OperationRaces.Completing, Absent;
    TryStaysAbsent(s, t, OPERATION_CANCELED, CancelHook, c);
    if !force && s.skip { SignalStaysAbsent(s, t, force, c); }
  }

  lemma SignalStaysAbsent(s: State, t: Tid, force: bool, c: Child)
    requires Absent(s, c) && !force && s.skip
    ensures StaysAbsent(s, RunCancel(s, t, force, Deciding), t, c)
  {
    hide OperationRaces.Completing;
  }

  lemma FinishStaysAbsent(s: State, t: Tid, at: FinishPc, c: Child)
    requires Absent(s, c)
    ensures StaysAbsent(s, RunFinish(s, t, at), t, c)
  {
  }

  lemma ListStaysAbsent(s: State, t: Tid, d: Child, at: ListPc, c: Child)
    requires Absent(s, c) && PcOf(s, t) == Listing(d, at)
    ensures StaysAbsent(s, RunList(s, t, d, at), t, c)
  {
    assert Avoids(PcOf(s, t), c);
  }

  lemma GoKeepsAbsent(s: State, t: Tid, c: Child)
    requires Absent(s, c)
    ensures Absent(Run(s, t), c)
  {
    hide OperationRaces.Completing, RunFinish, RunList, RunCancel, Avoids;
    match PcOf(s, t)
    case Idle =>
    case Trying(error) => TryStaysAbsent(s, t, error, Assigning(error), c);
    case Finishing(at) => FinishStaysAbsent(s, t, at, c);
    case Cancelling(force, at) =>
      if at.Marking? { MarkStaysAbsent(s, t, force, c); }
      else if at.Deciding? { DecideStaysAbsent(s, t, force, c); }
      else { SweepStaysAbsent(s, t, force, at, c); }
    case Listing(d, at) => ListStaysAbsent(s, t, d, at, c);
  }

  predicate AttachesNone(es: seq<Event>, c: Child) {
    forall i :: 0 <= i < |es| ==> !(es[i].Begin? && es[i].request == Attach(c))
  }

  lemma StepKeepsAbsent(s: State, e: Event, c: Child)
    requires Absent(s, c) && !(e.Begin? && e.request == Attach(c))
    ensures Absent(Step(s, e), c)
  {
    hide Run;
    if e.Go? { GoKeepsAbsent(s, e.tid, c); }
  }

  lemma NotTakenYet(s: State, c: Child)
    requires ChildInv(s) && ListedAreOwed(s) && !s.family.swept && c !in s.family.owed && s.family.snapshot == []
    requires forall t :: t in s.threads && s.threads[t].Listing? && Attaches(s.threads[t].list) ==> s.threads[t].child != c
    ensures Absent(s, c)
  {
    forall t | t in s.threads ensures Avoids(s.threads[t], c) {
      assert ThreadFacts(t, s.threads[t], s.kids, s.done.cleaned, s.family);
    }
  }

  lemma {:induction false} NoSnapshotYet(skip: bool, hasCallback: bool, es: seq<Event>)
    ensures var f := Exec(Initial(skip, hasCallback), es).family; !f.swept ==> f.snapshot == []
  {
    if es != [] {
      hide FinishStep, StartComplete, ListStep;
      NoSnapshotYet(skip, hasCallback, es[..|es| - 1]);
    }
  }

  lemma {:induction false} RunKeepsAbsent(s: State, es: seq<Event>, c: Child)
    requires Absent(s, c) && AttachesNone(es, c)
    ensures Absent(Exec(s, es), c)
  {
    hide Step, Absent;
    if es != [] {
      RunKeepsAbsent(s, es[..|es| - 1], c);
      StepKeepsAbsent(Exec(s, es[..|es| - 1]), es[|es| - 1], c);
    }
  }

  lemma {:induction false} RunsInTwo(s: State, es: seq<Event>, more: seq<Event>)
    ensures Exec(s, es + more) == Exec(Exec(s, es), more)
    decreases |more|
  {
    hide Step;
    if more == [] {
      assert es + more == es;
    } else {
      assert (es + more)[..|es + more| - 1] == es + more[..|more| - 1];
      RunsInTwo(s, es, more[..|more| - 1]);
    }
  }

  /** A child that has been detached when no sweep has taken the list yet, and that is not
      attached again, is neither listed nor swept nor cancelled in all that follows. */
  lemma DetachedIsSpared(skip: bool, hasCallback: bool, es: seq<Event>, more: seq<Event>, c: Child)
    requires var s := Exec(Initial(skip, hasCallback), es);
             && !s.family.swept && c !in s.family.owed
             && forall t :: t in s.threads && s.threads[t].Listing? && Attaches(s.threads[t].list) ==> s.threads[t].child != c
    requires AttachesNone(more, c)
    ensures var s := Exec(Initial(skip, hasCallback), es + more);
            c !in s.kids.children && c !in s.family.snapshot && c !in s.family.cancelCalls
  {
    var s := Exec(Initial(skip, hasCallback), es);
    ExecKeepsInv(skip, hasCallback, es);
    ExecKeepsOwed(skip, hasCallback, es);
    NoSnapshotYet(skip, hasCallback, es);
    RunsInTwo(Initial(skip, hasCallback), es, more);
    hide Exec, Initial, ChildInv, CompletionInv, ListedAreOwed;
    NotTakenYet(s, c);
    RunKeepsAbsent(s, more, c);
  }

  /** A child that has gone stays gone, and no sweep that starts later takes it along. */
  lemma {:induction false} ExpiredStays(skip: bool, hasCallback: bool, es: seq<Event>, c: Child)
    requires Expire(c) in es
    ensures c in Exec(Initial(skip, hasCallback), es).expired
  {
    hide Step;
    var before, last := es[..|es| - 1], es[|es| - 1];
    assert es == before + [last];
    if Expire(c) in before { ExpiredStays(skip, hasCallback, before, c); }
    StepKeepsExpired(Exec(Initial(skip, hasCallback), before), last, c);
  }

  lemma StepKeepsExpired(s: State, e: Event, c: Child)
    requires c in s.expired || e == Expire(c)
    ensures c in Step(s, e).expired
  {
    hide FinishStep, StartComplete, ListStep, SweepStep, CleanStep;
  }
}
