/** What each call does that one thread makes alone, from the request to its return: the
    statements of OperationRaces, one after the other, add up to this. */
module OperationAlone {
  import opened Threads
  import opened LifecycleWord
  import opened ErrorCodes
  import opened OperationRaces

  function Alone(s: State, t: Tid, n: nat): State
    decreases n
  {
    if n == 0 then s else Alone(Run(s, t), t, n - 1)
  }

  lemma {:induction false} AloneGoesOn(s: State, t: Tid, n: nat, m: nat)
    ensures Alone(Alone(s, t, n), t, m) == Alone(s, t, n + m)
    decreases n
  {
    hide Run;
    if n > 0 { AloneGoesOn(Run(s, t), t, n - 1, m); }
  }

  /** s, but for what a thread changes. */
  function Mid(s: State, t: Tid, pc: Pc, op: Operation, kids: Kids, done: Done, family: Family): State {
    s.(threads := s.threads[t := pc], op := op, kids := kids, done := done, family := family)
  }

  /** A thread alone comes from here to there. */
  ghost predicate Leads(s: State, t: Tid, s': State) {
    exists n: nat :: Alone(s, t, n) == s'
  }

  lemma LeadsOn(s: State, t: Tid, s': State, s'': State)
    requires Leads(s, t, s') && Leads(s', t, s'')
    ensures Leads(s, t, s'')
  {
    hide Run, Alone;
    var n: nat :| Alone(s, t, n) == s';
    var m: nat :| Alone(s', t, m) == s'';
    AloneGoesOn(s, t, n, m);
  }

  lemma OneStep(s: State, t: Tid)
    ensures Leads(s, t, Run(s, t)) && Leads(s, t, s)
  {
    hide Run;
    assert Alone(s, t, 0) == s;
    assert Alone(s, t, 1) == Alone(Run(s, t), t, 0);
  }

  // ---------------------------------------------------------------- completion

  lemma FinishGoes(s: State, t: Tid, at: FinishPc, op: Operation, kids: Kids, done: Done, family: Family)
    requires kids.lock.None? || !at.CleanLock?
    ensures var n := FinishStep(at, op, done);
            Leads(Mid(s, t, Finishing(at), op, kids, done, family), t, Mid(s, t, n.pc, n.op, CleanStep(t, at, kids), n.done, family))
  {
    var x := Mid(s, t, Finishing(at), op, kids, done, family);
    var n := FinishStep(at, op, done);
    OneStep(x, t);
    hide FinishStep, CleanStep, Leads;
    assert x.threads[t := n.pc] == s.threads[t := n.pc];
    assert Run(x, t) == Mid(s, t, n.pc, n.op, CleanStep(t, at, kids), n.done, family);
  }

  /** What a completion leaves of an operation. */
  function Over(op: Operation, error: Value): Operation {
    Operation(op.view.(life := Life.Completed), Assigned(Of(error)), false)
  }

  function Fired(op: Operation, fired: seq<Fire>, error: Value): seq<Fire> {
    if op.callback then fired + [Fire(Life.Completed, error)] else fired
  }

  /** From the winner's claim to the end of FinishComplete. */
  lemma FinishesAlone(s: State, t: Tid, error: Value, op: Operation, kids: Kids, done: Done, family: Family)
    requires op.view.life == Life.Completing && kids.lock.None? && MayAssign(op.error)
    ensures Leads(Mid(s, t, Finishing(Assigning(error)), op, kids, done, family), t,
                  Mid(s, t, Idle, Over(op, error), Kids(None, []), done.(fired := Fired(op, done.fired, error), cleaned := true), family))
  {
    var x := Mid(s, t, Finishing(Assigning(error)), op, kids, done, family);
    var op1 := op.(error := Assigned(Of(error)));
    var op2 := op1.(view := op.view.(life := Life.Completed));
    var done1 := done.(fired := Fired(op, done.fired, error));
    var done2 := done1.(cleaned := true);
    var held := kids.(lock := Some(t));
    assert Atomic(Complete, op.view) == Outcome(op.view.(life := Life.Completed), Swapped(true));
    hide Leads, Mid, Run;
    FinishGoes(s, t, Assigning(error), op, kids, done, family);
    FinishGoes(s, t, Transitioning, op1, kids, done, family);
    LeadsOn(x, t, Mid(s, t, Finishing(Transitioning), op1, kids, done, family), Mid(s, t, Finishing(Notifying), op2, kids, done, family));
    FinishGoes(s, t, Notifying, op2, kids, done, family);
    LeadsOn(x, t, Mid(s, t, Finishing(Notifying), op2, kids, done, family), Mid(s, t, Finishing(Calling), op2, kids, done, family));
    FinishGoes(s, t, Calling, op2, kids, done, family);
    LeadsOn(x, t, Mid(s, t, Finishing(Calling), op2, kids, done, family), Mid(s, t, Finishing(CleanLock), op2, kids, done1, family));
    CleansAlone(s, t, op2, kids, done1, family);
    LeadsOn(x, t, Mid(s, t, Finishing(CleanLock), op2, kids, done1, family),
            Mid(s, t, Idle, op2.(callback := false), Kids(None, []), done2, family));
  }

  lemma CleansAlone(s: State, t: Tid, op: Operation, kids: Kids, done: Done, family: Family)
    requires kids.lock.None?
    ensures Leads(Mid(s, t, Finishing(CleanLock), op, kids, done, family), t,
                  Mid(s, t, Idle, op.(callback := false), Kids(None, []), done.(cleaned := true), family))
  {
    var x := Mid(s, t, Finishing(CleanLock), op, kids, done, family);
    var held, done2 := kids.(lock := Some(t)), done.(cleaned := true);
    hide Leads, Mid, Run;
    FinishGoes(s, t, CleanLock, op, kids, done, family);
    FinishGoes(s, t, CleanClear, op, held, done, family);
    LeadsOn(x, t, Mid(s, t, Finishing(CleanClear), op, held, done, family), Mid(s, t, Finishing(CleanUnlock), op, Kids(Some(t), []), done2, family));
    FinishGoes(s, t, CleanUnlock, op, Kids(Some(t), []), done2, family);
    LeadsOn(x, t, Mid(s, t, Finishing(CleanUnlock), op, Kids(Some(t), []), done2, family),
            Mid(s, t, Finishing(DetachSelf), op, Kids(None, []), done2, family));
    FinishGoes(s, t, DetachSelf, op, Kids(None, []), done2, family);
    LeadsOn(x, t, Mid(s, t, Finishing(DetachSelf), op, Kids(None, []), done2, family),
            Mid(s, t, Finishing(DropCallback), op, Kids(None, []), done2, family));
    FinishGoes(s, t, DropCallback, op, Kids(None, []), done2, family);
    LeadsOn(x, t, Mid(s, t, Finishing(DropCallback), op, Kids(None, []), done2, family),
            Mid(s, t, Idle, op.(callback := false), Kids(None, []), done2, family));
  }

  /** Nobody is inside, and t may begin. */
  predicate Free(s: State, t: Tid) {
    s.kids.lock.None? && PcOf(s, t).Idle?
  }

  lemma Begins(s: State, t: Tid, request: Request)
    requires PcOf(s, t).Idle?
    ensures Step(s, Begin(t, request)) == Mid(s, t, FirstPc(request), s.op, s.kids, s.done, s.family)
  {
  }

  function Won(t: Tid, op: Operation, done: Done, error: Value): Done {
    done.(wins := done.wins + 1, winner := Some(error), owner := Some(t), fired := Fired(op, done.fired, error), cleaned := true)
  }

  function Refused(op: Operation, done: Done): Done {
    done.(refused := done.refused || op.view.life != Created)
  }

  lemma ClaimsAlone(s: State, t: Tid, pc: Pc, error: Value, onWin: FinishPc, op: Operation, kids: Kids, done: Done, family: Family)
    requires (pc == Trying(error) && onWin == Assigning(error))
             || (pc.Cancelling? && pc.cancel.Deciding? && (pc.force || !s.skip) && error == OPERATION_CANCELED && onWin == CancelHook)
    ensures Leads(Mid(s, t, pc, op, kids, done, family), t,
                  if op.view.life == Started then
                    Mid(s, t, Finishing(onWin), op.(view := op.view.(life := Life.Completing)), kids,
                        done.(wins := done.wins + 1, winner := Some(error), owner := Some(t)), family)
                  else Mid(s, t, Idle, op, kids, Refused(op, done), family))
  {
    var x := Mid(s, t, pc, op, kids, done, family);
    OneStep(x, t);
    var n := StartComplete(t, error, onWin, op, done);
    assert x.threads[t := n.pc] == s.threads[t := n.pc];
    hide Leads;
    assert Run(x, t) == Mid(s, t, n.pc, n.op, kids, n.done, family);
  }

  /** What TryComplete comes to: a started operation is completed with the given error,
      and calls back with it; any other is left alone. */
  lemma TryCompleteAlone(s: State, t: Tid, error: Value)
    requires Free(s, t) && CompletionInv(s)
    ensures Leads(Step(s, Begin(t, TryComplete(error))), t,
                  if s.op.view.life == Started then Mid(s, t, Idle, Over(s.op, error), Kids(None, []), Won(t, s.op, s.done, error), s.family)
                  else Mid(s, t, Idle, s.op, s.kids, Refused(s.op, s.done), s.family))
  {
    Begins(s, t, TryComplete(error));
    MayFinish(s);
    hide CompletionInv, Leads, Step;
    ClaimsAlone(s, t, Trying(error), error, Assigning(error), s.op, s.kids, s.done, s.family);
    if s.op.view.life == Started {
      var claimed := s.op.(view := s.op.view.(life := Life.Completing));
      var done := s.done.(wins := s.done.wins + 1, winner := Some(error), owner := Some(t));
      FinishesAlone(s, t, error, claimed, s.kids, done, s.family);
      LeadsOn(Step(s, Begin(t, TryComplete(error))), t, Mid(s, t, Finishing(Assigning(error)), claimed, s.kids, done, s.family),
              Mid(s, t, Idle, Over(claimed, error), Kids(None, []), done.(fired := Fired(claimed, done.fired, error), cleaned := true), s.family));
      assert Over(claimed, error) == Over(s.op, error);
    }
  }

  lemma MayFinish(s: State)
    requires CompletionInv(s)
    ensures s.op.view.life == Started ==> MayAssign(s.op.error)
  {
  }

  // ---------------------------------------------------------------- cancel

  function Live(list: seq<Child>, expired: set<Child>): seq<Child> {
    if list == [] then [] else (if list[0] in expired then [] else [list[0]]) + Live(list[1..], expired)
  }

  lemma SweepGoes(s: State, t: Tid, force: bool, at: CancelPc, op: Operation, kids: Kids, done: Done, family: Family)
    requires !at.Marking? && !at.Deciding? && !at.Signalling? && (kids.lock.None? || !at.SweepLock?)
    ensures var n := SweepStep(t, at, done.cleaned, kids, s.expired, family);
            Leads(Mid(s, t, Cancelling(force, at), op, kids, done, family), t,
                  Mid(s, t, Cancelling(force, n.cancel), op, n.kids, done, n.family))
  {
    var x := Mid(s, t, Cancelling(force, at), op, kids, done, family);
    var n := SweepStep(t, at, done.cleaned, kids, s.expired, family);
    OneStep(x, t);
    hide SweepStep, Leads;
    assert x.threads[t := Cancelling(force, n.cancel)] == s.threads[t := Cancelling(force, n.cancel)];
    assert Run(x, t) == Mid(s, t, Cancelling(force, n.cancel), op, n.kids, done, n.family);
  }

  lemma {:induction false} CollectsAlone(s: State, t: Tid, force: bool, i: nat, found: seq<Child>, op: Operation, kids: Kids, done: Done, family: Family)
    requires i <= |kids.children|
    ensures Leads(Mid(s, t, Cancelling(force, Sweeping(i, found)), op, kids, done, family), t,
                  Mid(s, t, Cancelling(force, SweepClear(found + Live(kids.children[i..], s.expired))), op, kids, done, family))
    decreases |kids.children| - i
  {
    hide Leads, Mid;
    SweepGoes(s, t, force, Sweeping(i, found), op, kids, done, family);
    if i < |kids.children| {
      var c := kids.children[i];
      var more := if c in s.expired then found else found + [c];
      CollectsAlone(s, t, force, i + 1, more, op, kids, done, family);
      assert kids.children[i..][1..] == kids.children[i + 1..];
      assert found + Live(kids.children[i..], s.expired) == more + Live(kids.children[i + 1..], s.expired);
      LeadsOn(Mid(s, t, Cancelling(force, Sweeping(i, found)), op, kids, done, family), t,
              Mid(s, t, Cancelling(force, Sweeping(i + 1, more)), op, kids, done, family),
              Mid(s, t, Cancelling(force, SweepClear(found + Live(kids.children[i..], s.expired))), op, kids, done, family));
    } else {
      assert found + Live([], s.expired) == found;
    }
  }

  lemma {:induction false} RecursesAlone(s: State, t: Tid, force: bool, rest: seq<Child>, op: Operation, kids: Kids, done: Done, family: Family)
    ensures Leads(Mid(s, t, Cancelling(force, Recursing(rest)), op, kids, done, family), t,
                  Mid(s, t, Cancelling(force, Deciding), op, kids, done, family.(cancelCalls := family.cancelCalls + rest)))
    decreases |rest|
  {
    hide Leads, Mid;
    SweepGoes(s, t, force, Recursing(rest), op, kids, done, family);
    if rest != [] {
      var one := family.(cancelCalls := family.cancelCalls + [rest[0]]);
      RecursesAlone(s, t, force, rest[1..], op, kids, done, one);
      assert family.cancelCalls + [rest[0]] + rest[1..] == family.cancelCalls + rest;
      LeadsOn(Mid(s, t, Cancelling(force, Recursing(rest)), op, kids, done, family), t,
              Mid(s, t, Cancelling(force, Recursing(rest[1..])), op, kids, done, one),
              Mid(s, t, Cancelling(force, Deciding), op, kids, done, family.(cancelCalls := family.cancelCalls + rest)));
    } else {
      assert family.cancelCalls + [] == family.cancelCalls;
    }
  }

  /** The family after a sweep that found these children live. */
  function Swept(t: Tid, family: Family, cleaned: bool, found: seq<Child>): Family {
    family.(sweeper := Some(t), swept := true, cleanedFirst := cleaned, snapshot := found, cancelCalls := family.cancelCalls + found)
  }

  lemma SweepsAlone(s: State, t: Tid, force: bool, op: Operation, kids: Kids, done: Done, family: Family)
    requires kids.lock.None? && family.sweeper == Some(t)
    ensures Leads(Mid(s, t, Cancelling(force, SweepLock), op, kids, done, family), t,
                  Mid(s, t, Cancelling(force, Deciding), op, Kids(None, []), done,
                      Swept(t, family, done.cleaned, Live(kids.children, s.expired))))
  {
    var x := Mid(s, t, Cancelling(force, SweepLock), op, kids, done, family);
    var found := Live(kids.children, s.expired);
    var held := kids.(lock := Some(t));
    var family2 := family.(swept := true, snapshot := found, cleanedFirst := done.cleaned);
    assert kids.children[0..] == kids.children && [] + found == found;
    hide Leads, Mid, Live;
    SweepGoes(s, t, force, SweepLock, op, kids, done, family);
    CollectsAlone(s, t, force, 0, [], op, held, done, family);
    LeadsOn(x, t, Mid(s, t, Cancelling(force, Sweeping(0, [])), op, held, done, family),
            Mid(s, t, Cancelling(force, SweepClear(found)), op, held, done, family));
    SweepGoes(s, t, force, SweepClear(found), op, held, done, family);
    LeadsOn(x, t, Mid(s, t, Cancelling(force, SweepClear(found)), op, held, done, family),
            Mid(s, t, Cancelling(force, SweepUnlock(found)), op, Kids(Some(t), []), done, family2));
    SweepGoes(s, t, force, SweepUnlock(found), op, Kids(Some(t), []), done, family2);
    LeadsOn(x, t, Mid(s, t, Cancelling(force, SweepUnlock(found)), op, Kids(Some(t), []), done, family2),
            Mid(s, t, Cancelling(force, Recursing(found)), op, Kids(None, []), done, family2));
    RecursesAlone(s, t, force, found, op, Kids(None, []), done, family2);
    LeadsOn(x, t, Mid(s, t, Cancelling(force, Recursing(found)), op, Kids(None, []), done, family2),
            Mid(s, t, Cancelling(force, Deciding), op, Kids(None, []), done, Swept(t, family, done.cleaned, found)));
  }

  lemma MarksAlone(s: State, t: Tid, force: bool)
    requires PcOf(s, t).Idle?
    ensures Leads(Step(s, Begin(t, Request.Cancel(force))), t,
                  if s.op.view.cancelled then Mid(s, t, Idle, s.op, s.kids, s.done, s.family)
                  else Mid(s, t, Cancelling(force, SweepLock), s.op.(view := s.op.view.(cancelled := true)), s.kids, s.done,
                           s.family.(sweeper := Some(t))))
  {
    var x := Step(s, Begin(t, Request.Cancel(force)));
    OneStep(x, t);
    hide Leads;
    assert x.threads[t := Idle] == s.threads[t := Idle];
    assert x.threads[t := Cancelling(force, SweepLock)] == s.threads[t := Cancelling(force, SweepLock)];
  }

  /** What Cancel comes to: nothing, if the operation was cancelled before. Otherwise every
      live child is cancelled in the order of the list, which is emptied; and a started
      operation is completed, unless cancel is only a signal and not forced. */
  lemma CancelAlone(s: State, t: Tid, force: bool)
    requires Free(s, t) && CompletionInv(s)
    ensures var op := s.op.(view := s.op.view.(cancelled := true));
            var family := Swept(t, s.family, s.done.cleaned, Live(s.kids.children, s.expired));
            Leads(Step(s, Begin(t, Request.Cancel(force))), t,
                  if s.op.view.cancelled then Mid(s, t, Idle, s.op, s.kids, s.done, s.family)
                  else if !force && s.skip then Mid(s, t, Idle, op, Kids(None, []), s.done, family)
                  else if s.op.view.life == Started then
                    Mid(s, t, Idle, Over(op, OPERATION_CANCELED), Kids(None, []), Won(t, op, s.done, OPERATION_CANCELED), family)
                  else Mid(s, t, Idle, op, Kids(None, []), Refused(op, s.done), family))
  {
    var x := Step(s, Begin(t, Request.Cancel(force)));
    MayFinish(s);
    MarksAlone(s, t, force);
    hide CompletionInv, Leads, Step, Mid, Live, Over, Fired, Run;
    if !s.op.view.cancelled {
      var op := s.op.(view := s.op.view.(cancelled := true));
      var marked := s.family.(sweeper := Some(t));
      var family := Swept(t, s.family, s.done.cleaned, Live(s.kids.children, s.expired));
      SweepsAlone(s, t, force, op, s.kids, s.done, marked);
      assert Swept(t, marked, s.done.cleaned, Live(s.kids.children, s.expired)) == family;
      LeadsOn(x, t, Mid(s, t, Cancelling(force, SweepLock), op, s.kids, s.done, marked),
              Mid(s, t, Cancelling(force, Deciding), op, Kids(None, []), s.done, family));
      DecidesAlone(s, t, force, op, s.done, family);
      LeadsOn(x, t, Mid(s, t, Cancelling(force, Deciding), op, Kids(None, []), s.done, family),
              Decision(s, t, force, op, s.done, family));
    }
  }

  function Decision(s: State, t: Tid, force: bool, op: Operation, done: Done, family: Family): State {
    if !force && s.skip then Mid(s, t, Idle, op, Kids(None, []), done, family)
    else if op.view.life == Started then
      Mid(s, t, Idle, Over(op, OPERATION_CANCELED), Kids(None, []), Won(t, op, done, OPERATION_CANCELED), family)
    else Mid(s, t, Idle, op, Kids(None, []), Refused(op, done), family)
  }

  lemma SignalsAlone(s: State, t: Tid, force: bool, op: Operation, kids: Kids, done: Done, family: Family)
    requires !force && s.skip
    ensures Leads(Mid(s, t, Cancelling(force, Deciding), op, kids, done, family), t, Mid(s, t, Idle, op, kids, done, family))
  {
    var x := Mid(s, t, Cancelling(force, Deciding), op, kids, done, family);
    var y := Mid(s, t, Cancelling(force, Signalling), op, kids, done, family);
    OneStep(x, t);
    OneStep(y, t);
    hide Leads;
    assert x.threads[t := Cancelling(force, Signalling)] == y.threads && y.threads[t := Idle] == s.threads[t := Idle];
    LeadsOn(x, t, y, Mid(s, t, Idle, op, kids, done, family));
  }

  lemma DecidesAlone(s: State, t: Tid, force: bool, op: Operation, done: Done, family: Family)
    requires op.view.life == Started ==> MayAssign(op.error)
    ensures Leads(Mid(s, t, Cancelling(force, Deciding), op, Kids(None, []), done, family), t, Decision(s, t, force, op, done, family))
  {
    var x := Mid(s, t, Cancelling(force, Deciding), op, Kids(None, []), done, family);
    hide Leads, Mid, Run;
    if !force && s.skip {
      SignalsAlone(s, t, force, op, Kids(None, []), done, family);
    } else {
      ClaimsAlone(s, t, Cancelling(force, Deciding), OPERATION_CANCELED, CancelHook, op, Kids(None, []), done, family);
      if op.view.life == Started {
        var claimed := op.(view := op.view.(life := Life.Completing));
        var won := done.(wins := done.wins + 1, winner := Some(OPERATION_CANCELED), owner := Some(t));
        FinishGoes(s, t, CancelHook, claimed, Kids(None, []), won, family);
        LeadsOn(x, t, Mid(s, t, Finishing(CancelHook), claimed, Kids(None, []), won, family),
                Mid(s, t, Finishing(Assigning(OPERATION_CANCELED)), claimed, Kids(None, []), won, family));
        FinishesAlone(s, t, OPERATION_CANCELED, claimed, Kids(None, []), won, family);
        LeadsOn(x, t, Mid(s, t, Finishing(Assigning(OPERATION_CANCELED)), claimed, Kids(None, []), won, family),
                Decision(s, t, force, op, done, family));
      }
    }
  }

  // ---------------------------------------------------------------- attach and detach

  lemma ListGoes(s: State, t: Tid, c: Child, at: ListPc, kids: Kids, owed: set<Child>)
    requires kids.lock.None? || !(at.AttachLock? || at.DetachLock?)
    ensures var n := ListStep(t, c, at, s.op.view, kids, s.expired, owed);
            Leads(Mid(s, t, Listing(c, at), s.op, kids, s.done, s.family.(owed := owed)), t,
                  Mid(s, t, n.pc, s.op, n.kids, s.done, s.family.(owed := n.owed)))
  {
    var x := Mid(s, t, Listing(c, at), s.op, kids, s.done, s.family.(owed := owed));
    var n := ListStep(t, c, at, s.op.view, kids, s.expired, owed);
    OneStep(x, t);
    hide ListStep, Leads;
    assert x.threads[t := n.pc] == s.threads[t := n.pc];
    assert Run(x, t) == Mid(s, t, n.pc, s.op, n.kids, s.done, s.family.(owed := n.owed));
  }

  /** What AttachChild comes to: refused once the operation is completing, completed or
      cancelled; otherwise the child goes to the end of the list. */
  lemma AttachAlone(s: State, t: Tid, c: Child)
    requires Free(s, t)
    ensures Leads(Step(s, Begin(t, Attach(c))), t,
                  if Stage(s.op.view.life) >= 2 || s.op.view.cancelled then Mid(s, t, Idle, s.op, s.kids, s.done, s.family)
                  else Mid(s, t, Idle, s.op, Kids(None, s.kids.children + [c]), s.done, s.family.(owed := s.family.owed + {c})))
  {
    var x := Step(s, Begin(t, Attach(c)));
    var held := s.kids.(lock := Some(t));
    var owed := s.family.owed;
    Begins(s, t, Attach(c));
    assert s.family.(owed := owed) == s.family && held.(lock := None) == s.kids;
    hide Leads, Mid, Run, Step;
    ListGoes(s, t, c, AttachLock, s.kids, owed);
    ListGoes(s, t, c, AttachCheckComplete, held, owed);
    LeadsOn(x, t, Mid(s, t, Listing(c, AttachCheckComplete), s.op, held, s.done, s.family),
            Mid(s, t, Listing(c, if Stage(s.op.view.life) >= 2 then AttachUnlock else AttachCheckCancel), s.op, held, s.done, s.family));
    if Stage(s.op.view.life) < 2 {
      ListGoes(s, t, c, AttachCheckCancel, held, owed);
      LeadsOn(x, t, Mid(s, t, Listing(c, AttachCheckCancel), s.op, held, s.done, s.family),
              Mid(s, t, Listing(c, if s.op.view.cancelled then AttachUnlock else AttachPush), s.op, held, s.done, s.family));
    }
    UnlocksAlone(s, t, c, x, held, owed);
  }

  lemma UnlocksAlone(s: State, t: Tid, c: Child, x: State, held: Kids, owed: set<Child>)
    requires held == s.kids.(lock := Some(t)) && s.kids.lock.None? && owed == s.family.owed
    requires Leads(x, t, Mid(s, t, Listing(c, if Stage(s.op.view.life) >= 2 || s.op.view.cancelled then AttachUnlock else AttachPush),
                             s.op, held, s.done, s.family))
    ensures Leads(x, t,
                  if Stage(s.op.view.life) >= 2 || s.op.view.cancelled then Mid(s, t, Idle, s.op, s.kids, s.done, s.family)
                  else Mid(s, t, Idle, s.op, Kids(None, s.kids.children + [c]), s.done, s.family.(owed := s.family.owed + {c})))
  {
    assert s.family.(owed := owed) == s.family && held.(lock := None) == s.kids;
    hide Leads, Mid, Run;
    if Stage(s.op.view.life) >= 2 || s.op.view.cancelled {
      ListGoes(s, t, c, AttachUnlock, held, owed);
      LeadsOn(x, t, Mid(s, t, Listing(c, AttachUnlock), s.op, held, s.done, s.family), Mid(s, t, Idle, s.op, s.kids, s.done, s.family));
    } else {
      var more := Kids(Some(t), s.kids.children + [c]);
      ListGoes(s, t, c, AttachPush, held, owed);
      LeadsOn(x, t, Mid(s, t, Listing(c, AttachPush), s.op, held, s.done, s.family),
              Mid(s, t, Listing(c, AttachUnlock), s.op, more, s.done, s.family.(owed := owed + {c})));
      ListGoes(s, t, c, AttachUnlock, more, owed + {c});
      LeadsOn(x, t, Mid(s, t, Listing(c, AttachUnlock), s.op, more, s.done, s.family.(owed := owed + {c})),
              Mid(s, t, Idle, s.op, Kids(None, s.kids.children + [c]), s.done, s.family.(owed := owed + {c})));
    }
  }

  /** What is left of a list without one child and without the expired. */
  lemma {:induction false} WithoutIsLive(list: seq<Child>, c: Child, expired: set<Child>)
    ensures Without(list, c, expired) == Live(list, expired + {c})
    decreases |list|
  {
    if list != [] {
      var rest, last := list[..|list| - 1], list[|list| - 1];
      assert list == rest + [last];
      WithoutIsLive(rest, c, expired);
      LiveSplits(rest, [last], expired + {c});
    }
  }

  lemma {:induction false} LiveSplits(a: seq<Child>, b: seq<Child>, expired: set<Child>)
    ensures Live(a + b, expired) == Live(a, expired) + Live(b, expired)
    decreases |a|
  {
    if a == [] {
      assert a + b == b;
    } else {
      assert (a + b)[1..] == a[1..] + b;
      LiveSplits(a[1..], b, expired);
    }
  }

  /** What DetachChild comes to: the child and every expired entry leave the list, the
      rest stays in its order. */
  lemma DetachAlone(s: State, t: Tid, c: Child)
    requires Free(s, t)
    ensures Leads(Step(s, Begin(t, Detach(c))), t,
                  Mid(s, t, Idle, s.op, Kids(None, Live(s.kids.children, s.expired + {c})), s.done, s.family.(owed := s.family.owed - {c})))
  {
    var x := Step(s, Begin(t, Detach(c)));
    var held, owed := s.kids.(lock := Some(t)), s.family.owed;
    var less := Kids(Some(t), Live(s.kids.children, s.expired + {c}));
    Begins(s, t, Detach(c));
    WithoutIsLive(s.kids.children, c, s.expired);
    assert s.family.(owed := owed) == s.family;
    hide Leads, Mid, Run, Step, Live, Without;
    ListGoes(s, t, c, DetachLock, s.kids, owed);
    ListGoes(s, t, c, DetachRemove, held, owed);
    LeadsOn(x, t, Mid(s, t, Listing(c, DetachRemove), s.op, held, s.done, s.family),
            Mid(s, t, Listing(c, DetachUnlock), s.op, less, s.done, s.family.(owed := owed - {c})));
    ListGoes(s, t, c, DetachUnlock, less, owed - {c});
    LeadsOn(x, t, Mid(s, t, Listing(c, DetachUnlock), s.op, less, s.done, s.family.(owed := owed - {c})),
            Mid(s, t, Idle, s.op, less.(lock := None), s.done, s.family.(owed := owed - {c})));
  }
}
