/** sf::AsyncOperation, a chain of any length under a race: Cancel of the head, which
    goes down the chain with the locks of all ancestors held, and Complete of the
    last member, whose callback may complete its parent, and so on upwards. Each
    member by itself goes through the race of SfRace; here is what holds between
    them. */
module SfChainRace {
  import opened Threads
  import opened SfOperation
  import opened SfRace

  /** `down` is the member whose Cancel is running, `up` the one whose Complete is. */
  datatype Chain = Chain(members: seq<Race>, down: nat, up: nat, reports: bool)

  function InitialChain(givens: seq<Code>, reports: bool): Chain
    requires givens != []
  {
    Chain(seq(|givens|, i requires 0 <= i < |givens| => SfRace.Initial(givens[i])), 0, |givens| - 1, reports)
  }

  /** child_.lock(): the child has not reset the link. */
  predicate Linked(ms: seq<Race>, i: nat) {
    i + 1 < |ms| && ms[i + 1].detached == 0
  }

  function StepDown(s: Chain): Chain {
    if s.down >= |s.members| then s
    else
      var r := s.members[s.down];
      if r.cancel.FirstSwitch? && r.state.Started? && Linked(s.members, s.down) then s.(down := s.down + 1)
      else if r.cancel.CancelReturned? && s.down > 0 then s.(down := s.down - 1)
      else s.(members := s.members[s.down := StepCancel(r)])
  }

  function StepUp(s: Chain): Chain {
    if s.up >= |s.members| then s
    else
      var r := s.members[s.up];
      if r.complete.Callback? && s.reports && s.up > 0 && s.members[s.up - 1].complete.Enter? then s.(up := s.up - 1)
      else if r.complete.CompleteReturned? && s.up + 1 < |s.members| then s.(up := s.up + 1)
      else s.(members := s.members[s.up := StepComplete(r)])
  }

  function StepChain(s: Chain, who: Who): Chain {
    if who == Canceller then StepDown(s) else StepUp(s)
  }

  function ExecChain(s: Chain, schedule: seq<Who>): Chain {
    if schedule == [] then s else StepChain(ExecChain(s, schedule[..|schedule| - 1]), schedule[|schedule| - 1])
  }

  // ---------------------------------------------------------------- the invariant

  predicate Reporting(r: Race) {
    r.complete.Callback? || r.complete.DropCallback? || r.complete.CompleteReturned?
  }

  /** A parent is decided after its child has let go of it, and completed after its
      child has. */
  predicate InOrder(parent: Race, child: Race) {
    && (parent.first.Some? ==> child.first.Some? && child.detached == 1)
    && (!parent.complete.Enter? ==> child.first == Some(Completer) && Reporting(child))
  }

  /** Where the two threads stand with respect to member i. */
  predicate Placed(s: Chain, i: nat)
    requires i < |s.members|
  {
    var r := s.members[i];
    && (i < s.down ==> r.cancel.FirstSwitch? && r.state.Started?)
    && (i > s.down ==> r.cancel.EnterFirst? || r.cancel.CancelReturned?)
    && (i > s.up ==> r.complete.Callback?)
    && (i < s.up ==> r.complete.Enter? || r.complete.CompleteReturned?)
  }

  ghost predicate ChainInv(s: Chain) {
    && s.down < |s.members| && s.up < |s.members|
    && (forall i :: 0 <= i < |s.members| ==> SfRace.Inv(s.members[i]) && Placed(s, i))
    && (forall i :: 0 <= i < |s.members| - 1 ==> InOrder(s.members[i], s.members[i + 1]))
  }

  lemma MemberSteps(r: Race, who: Who)
    requires SfRace.Inv(r)
    ensures var r' := SfRace.Step(r, who);
            && SfRace.Inv(r') && (r.first.Some? ==> r'.first == r.first) && r.detached <= r'.detached <= 1
            && (r.first.None? && r'.first.Some? ==>
                  if who == Canceller then r.cancel.FirstSwitch? && r.state.Started? else r.complete.Switch?)
            && (if who == Canceller then r'.complete == r.complete else r'.cancel == r.cancel)
            && (Reporting(r) ==> Reporting(r'))
            && (who == Completer && !r.complete.Enter? ==> !r'.complete.Enter?)
  {
    SfRace.StepKeepsInv(r, who);
  }

  lemma Decided(r: Race)
    requires SfRace.Inv(r)
    ensures r.detached <= 1 && (r.detached == 1 ==> r.first.Some?)
    ensures r.first == Some(Completer) && Reporting(r) ==> r.detached == 1
    ensures r.cancel.CancelReturned? ==> r.detached == 1
    ensures r.first.Some? ==> r.first == Some(Canceller) || r.first == Some(Completer)
  {
    if r.first.Some? && r.first.value == Canceller { assert r.first == Some(Canceller); }
    if r.first.Some? && r.first.value == Completer { assert r.first == Some(Completer); }
  }

  lemma ChildMoves(parent: Race, child: Race, who: Who)
    requires SfRace.Inv(child) && InOrder(parent, child)
    ensures InOrder(parent, SfRace.Step(child, who))
  {
    hide SfRace.Inv, SfRace.Step;
    MemberSteps(child, who);
    Decided(child);
    Decided(SfRace.Step(child, who));
  }

  lemma ParentMoves(parent: Race, child: Race, who: Who)
    requires SfRace.Inv(parent) && SfRace.Inv(child) && InOrder(parent, child)
    requires who == Canceller && parent.cancel.FirstSwitch? && parent.state.Started? ==> child.detached != 0
    requires who == Completer && parent.complete.Enter? ==> child.first == Some(Completer) && Reporting(child)
    ensures InOrder(SfRace.Step(parent, who), child)
  {
    hide SfRace.Inv, SfRace.Step;
    MemberSteps(parent, who);
    Decided(child);
  }

  /** One member moves, and keeps its place. */
  lemma MovesOne(s: Chain, at: nat, who: Who)
    requires ChainInv(s) && at < |s.members| && at == (if who == Canceller then s.down else s.up)
    requires who == Canceller && s.members[at].cancel.FirstSwitch? && s.members[at].state.Started? && at + 1 < |s.members| ==>
               s.members[at + 1].detached != 0
    requires who == Completer && s.members[at].complete.Enter? && at + 1 < |s.members| ==>
               s.members[at + 1].first == Some(Completer) && Reporting(s.members[at + 1])
    requires s.members[at].cancel.FirstSwitch? && s.members[at].state.Started? && who == Completer && at < s.down ==>
               SfRace.Step(s.members[at], who).state.Started?
    ensures ChainInv(s.(members := s.members[at := SfRace.Step(s.members[at], who)]))
  {
    var r := s.members[at];
    var s' := s.(members := s.members[at := SfRace.Step(r, who)]);
    MemberSteps(r, who);
    hide SfRace.Inv, SfRace.Step, InOrder;
    forall i | 0 <= i < |s'.members| ensures SfRace.Inv(s'.members[i]) && Placed(s', i) {
      assert SfRace.Inv(s.members[i]) && Placed(s, i);
    }
    forall i | 0 <= i < |s'.members| - 1 ensures InOrder(s'.members[i], s'.members[i + 1]) {
      assert InOrder(s.members[i], s.members[i + 1]);
      if i == at { ParentMoves(r, s.members[i + 1], who); }
      if i + 1 == at { ChildMoves(s.members[i], r, who); }
    }
  }

  lemma DownKeepsInv(s: Chain)
    requires ChainInv(s)
    ensures ChainInv(StepDown(s))
  {
    var r := s.members[s.down];
    assert SfRace.Inv(r);
    Decided(r);
    if r.cancel.FirstSwitch? && r.state.Started? && Linked(s.members, s.down) {
      MovesAlong(s, StepDown(s));
    } else if r.cancel.CancelReturned? && s.down > 0 {
      MovesAlong(s, StepDown(s));
    } else {
      MovesOne(s, s.down, Canceller);
    }
  }

  lemma UpKeepsInv(s: Chain)
    requires ChainInv(s)
    ensures ChainInv(StepUp(s))
  {
    var r := s.members[s.up];
    assert SfRace.Inv(r);
    if r.complete.Callback? && s.reports && s.up > 0 && s.members[s.up - 1].complete.Enter? {
      MovesAlong(s, StepUp(s));
    } else if r.complete.CompleteReturned? && s.up + 1 < |s.members| {
      MovesAlong(s, StepUp(s));
    } else {
      if s.up + 1 < |s.members| { CallbackHasWon(s, s.up + 1); }
      if r.cancel.FirstSwitch? && r.state.Started? { Blocked(r); }
      MovesOne(s, s.up, Completer);
    }
  }

  /** Only the place of a thread changes. */
  lemma MovesAlong(s: Chain, s': Chain)
    requires ChainInv(s) && s'.members == s.members && s'.down < |s.members| && s'.up < |s.members|
    requires forall i :: 0 <= i < |s.members| ==> Placed(s, i) ==> Placed(s', i)
    ensures ChainInv(s')
  {
    hide SfRace.Inv, InOrder;
  }

  lemma CallbackHasWon(s: Chain, i: nat)
    requires ChainInv(s) && s.up < i < |s.members|
    ensures s.members[i].first == Some(Completer) && Reporting(s.members[i])
  {
    assert SfRace.Inv(s.members[i]) && Placed(s, i);
    Decided(s.members[i]);
  }

  /** Complete waits while the first section of Cancel holds the lock. */
  lemma Blocked(r: Race)
    requires SfRace.Inv(r) && r.cancel.FirstSwitch? && r.state.Started?
    ensures SfRace.Step(r, Completer) == r
  {
  }

  lemma StepKeepsChainInv(s: Chain, who: Who)
    requires ChainInv(s)
    ensures ChainInv(StepChain(s, who)) && |StepChain(s, who).members| == |s.members| && StepChain(s, who).reports == s.reports
  {
    hide ChainInv;
    if who == Canceller { DownKeepsInv(s); } else { UpKeepsInv(s); }
  }

  lemma {:induction false} ExecKeepsChainInv(givens: seq<Code>, reports: bool, schedule: seq<Who>)
    requires givens != []
    ensures var s := ExecChain(InitialChain(givens, reports), schedule);
            ChainInv(s) && |s.members| == |givens|
  {
    if schedule != [] {
      ExecKeepsChainInv(givens, reports, schedule[..|schedule| - 1]);
      StepKeepsChainInv(ExecChain(InitialChain(givens, reports), schedule[..|schedule| - 1]), schedule[|schedule| - 1]);
    }
  }

  // ---------------------------------------------------------------- what holds in every run

  /** Neither thread has anything left to do. */
  predicate BothDone(s: Chain) {
    s.members != [] && s.down == 0 && s.members[0].cancel.CancelReturned? && s.up == |s.members| - 1 && s.members[s.up].complete.CompleteReturned?
  }

  predicate WasCancelled(r: Race) {
    r.state == State.Cancelled && r.fired == 0 && r.told == 1 && r.detached == 1
  }

  predicate WasCompleted(r: Race) {
    r.state == Completed && r.fired == 1 && r.told == 0 && r.detached == 1
  }

  /** What each assertion is about, on every member of the chain. */
  lemma AssertionsHold(givens: seq<Code>, reports: bool, schedule: seq<Who>, i: nat)
    requires givens != [] && i < |ExecChain(InitialChain(givens, reports), schedule).members|
    ensures var r := ExecChain(InitialChain(givens, reports), schedule).members[i];
            && (r.cancel.FirstSwitch? ==> r.state in {Started, Completed})
            && (r.cancel.SecondSwitch? ==> r.state == Cancelling)
            && (r.complete.Switch? ==> r.state in {Started, Cancelling, State.Cancelled})
            && (r.complete.SetCompleted? || r.complete.Callback? ==> r.callback)
  {
    ExecKeepsChainInv(givens, reports, schedule);
    hide ExecChain, InitialChain;
  }

  /** A chain of any length, cancelled at its head while its last member completes and
      each callback completes the parent: when both are done, the chain falls into an
      upper part that was cancelled and a lower part that was completed, every link
      between members is cleared, and each member took part in one of the two only. */
  lemma ChainSplits(givens: seq<Code>, reports: bool, schedule: seq<Who>) returns (split: nat)
    requires givens != [] && BothDone(ExecChain(InitialChain(givens, reports), schedule))
    ensures var ms := ExecChain(InitialChain(givens, reports), schedule).members;
            && |ms| == |givens| && split <= |ms|
            && (forall i :: 0 <= i < split ==> WasCancelled(ms[i]))
            && (forall i :: split <= i < |ms| ==> WasCompleted(ms[i]))
            && (forall i :: 0 <= i < |ms| ==> !Linked(ms, i) && !ms[i].late && !ms[i].broken)
  {
    ExecKeepsChainInv(givens, reports, schedule);
    var s := ExecChain(InitialChain(givens, reports), schedule);
    hide ExecChain, InitialChain, ChainInv, BothDone;
    split := 0;
    while split < |s.members| && s.members[split].first == Some(Canceller)
      invariant split <= |s.members|
      invariant forall i :: 0 <= i < split ==> s.members[i].first == Some(Canceller)
    {
      split := split + 1;
    }
    forall i | 0 <= i < |s.members|
      ensures (i < split ==> WasCancelled(s.members[i])) && (i >= split ==> WasCompleted(s.members[i]))
      ensures !Linked(s.members, i) && !s.members[i].late && !s.members[i].broken
    {
      MemberEnds(s, split, i);
    }
  }

  lemma MemberEnds(s: Chain, split: nat, i: nat)
    requires ChainInv(s) && BothDone(s) && split <= |s.members| && i < |s.members|
    requires forall k :: 0 <= k < split ==> s.members[k].first == Some(Canceller)
    requires split < |s.members| ==> s.members[split].first != Some(Canceller)
    ensures (i < split ==> WasCancelled(s.members[i])) && (i >= split ==> WasCompleted(s.members[i]))
    ensures !Linked(s.members, i) && !s.members[i].late && !s.members[i].broken
  {
    hide ChainInv, BothDone;
    AllDecided(s, i);
    if split < |s.members| { AllDecided(s, split); CompletedFrom(s, split, i); }
    FinalMember(s, i);
    if i + 1 < |s.members| { AllDecided(s, i + 1); FinalMember(s, i + 1); }
  }

  lemma {:induction false} AllDecided(s: Chain, i: nat)
    requires ChainInv(s) && s.members != [] && BothDone(s) && i < |s.members|
    ensures s.members[i].first == Some(Canceller) || s.members[i].first == Some(Completer)
  {
    assert SfRace.Inv(s.members[i]);
    Decided(s.members[i]);
    if i > 0 {
      AllDecided(s, i - 1);
      assert InOrder(s.members[i - 1], s.members[i - 1 + 1]);
    } else {
      Decided(s.members[0]);
    }
  }

  lemma {:induction false} CompletedFrom(s: Chain, k: nat, i: nat)
    requires ChainInv(s) && k < |s.members| && s.members[k].first == Some(Completer)
    ensures k <= i < |s.members| ==> s.members[i].first == Some(Completer)
  {
    if k < i < |s.members| {
      CompletedFrom(s, k, i - 1);
      assert SfRace.Inv(s.members[i - 1]) && InOrder(s.members[i - 1], s.members[i - 1 + 1]);
    }
  }

  lemma FinalMember(s: Chain, i: nat)
    requires ChainInv(s) && s.members != [] && BothDone(s) && i < |s.members|
    requires s.members[i].first == Some(Canceller) || s.members[i].first == Some(Completer)
    ensures if s.members[i].first == Some(Canceller) then WasCancelled(s.members[i]) else WasCompleted(s.members[i])
    ensures !s.members[i].late && !s.members[i].broken
  {
    assert SfRace.Inv(s.members[i]) && Placed(s, i);
  }

  /** Complete is only entered by a member whose child has let go of it, as the source
      asserts, and Cancel finds no child below a completed member. */
  lemma CompletedHasNoChild(givens: seq<Code>, reports: bool, schedule: seq<Who>, i: nat)
    requires givens != [] && i < |givens|
    ensures var ms := ExecChain(InitialChain(givens, reports), schedule).members;
            |ms| == |givens| && (ms[i].first == Some(Completer) || ms[i].complete.Switch? || ms[i].state == Completed ==> !Linked(ms, i))
  {
    ExecKeepsChainInv(givens, reports, schedule);
    var s := ExecChain(InitialChain(givens, reports), schedule);
    assert SfRace.Inv(s.members[i]);
    if i + 1 < |s.members| {
      assert InOrder(s.members[i], s.members[i + 1]) && SfRace.Inv(s.members[i + 1]);
      Decided(s.members[i + 1]);
    }
  }

  /** No deadlock, though Cancel waits for the lock of each member with the locks of
      all members above it held: until both are done, one of the two can go on. */
  lemma SomeoneGoesOn(givens: seq<Code>, reports: bool, schedule: seq<Who>)
    requires givens != []
    ensures var s := ExecChain(InitialChain(givens, reports), schedule);
            s.members != [] && (BothDone(s) || StepChain(s, Canceller) != s || StepChain(s, Completer) != s)
  {
    ExecKeepsChainInv(givens, reports, schedule);
    var s := ExecChain(InitialChain(givens, reports), schedule);
    hide ExecChain, InitialChain;
    Progress(s);
  }

  lemma Holder(r: Race)
    requires SfRace.Inv(r) && r.mutex.Some?
    ensures r.mutex == Some(Canceller) || r.mutex == Some(Completer)
  {
    if r.mutex.value == Canceller { assert r.mutex == Some(Canceller); } else { assert r.mutex == Some(Completer); }
  }

  lemma CancelWaits(r: Race)
    requires SfRace.Inv(r) && StepCancel(r) == r
    ensures r.cancel.CancelReturned? || (r.mutex == Some(Completer) && CompleteInside(r.complete))
  {
    if r.mutex.Some? { Holder(r); }
  }

  lemma CompleteWaits(r: Race)
    requires SfRace.Inv(r) && StepComplete(r) == r
    ensures r.complete.CompleteReturned? || (r.mutex == Some(Canceller) && CancelInside(r.cancel))
  {
    if r.mutex.Some? { Holder(r); }
  }

  lemma Progress(s: Chain)
    requires ChainInv(s)
    ensures s.members != [] && (BothDone(s) || StepChain(s, Canceller) != s || StepChain(s, Completer) != s)
  {
    var r, q := s.members[s.down], s.members[s.up];
    assert SfRace.Inv(r) && SfRace.Inv(q) && Placed(s, s.down) && Placed(s, s.up);
    if StepDown(s) == s && StepUp(s) == s {
      assert s.members[s.down := StepCancel(r)][s.down] == StepCancel(r);
      assert s.members[s.up := StepComplete(q)][s.up] == StepComplete(q);
      CancelWaits(r);
      CompleteWaits(q);
    }
  }
}
