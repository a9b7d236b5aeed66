/** ComponentRoot::ReferenceTracker: every tracked reference keeps the root alive
    and is listed in the root's own tracker under an id; when its last holder lets
    go, its destructor takes the id off the list and only then drops the root.
    Strong counts are modelled as the sets of their holders. */
module ReferenceTracker {
  import opened Threads

  type Id = nat

  /** Who keeps the root alive: owners elsewhere, the pointer through which a
      thread calls it, a tracked reference. */
  datatype RootHolder = External(n: nat) | Argument(tid: Tid) | Reference(id: Id)

  /** Who keeps a tracked reference alive: a local of one thread, or a copy elsewhere. */
  datatype Holder = Local(tid: Tid) | Copy(n: nat)

  datatype AddPc = TakeId | Construct(id: Id) | InsertLock(id: Id) | Insert(id: Id) | InsertUnlock(id: Id)

  datatype ReleasePc = EraseLock | Erase | EraseUnlock | DropRoot

  datatype Pc =
    | Idle
    | Adding(add: AddPc)
    | Releasing(id: Id, release: ReleasePc)
    | ReadLock
    | Reading

  /** `listed` is the tracker's own list; `inserted` and `erased` record its history. */
  datatype State = State(
    root: set<RootHolder>, destroyed: bool,
    nextId: Id, listed: set<Id>, writer: Option<Tid>, readers: set<Tid>,
    holders: map<Id, set<Holder>>, adder: map<Id, Tid>, releaser: map<Id, Tid>, dropped: set<Id>,
    inserted: set<Id>, erased: set<Id>,
    threads: map<Tid, Pc>)

  datatype Request = Add(owner: nat) | Release(id: Id, holder: Holder) | Read(owner: nat)

  datatype Event =
    | Begin(tid: Tid, request: Request)
    | Go(tid: Tid)
    | Visit(tid: Tid, id: Id)
    | Share(id: Id, of: Holder, to: nat)
    | ShareRoot(from: nat, to: nat)
    | LeaveRoot(n: nat)

  const INITIAL := State({External(0)}, false, 0, {}, None, {}, map[], map[], map[], {}, {}, {}, map[])

  function PcOf(s: State, t: Tid): Pc {
    if t in s.threads then s.threads[t] else Idle
  }

  function At(s: State, t: Tid, pc: Pc): State {
    s.(threads := s.threads[t := pc])
  }

  function HoldersOf(s: State, id: Id): set<Holder> {
    if id in s.holders then s.holders[id] else {}
  }

  /** The root is destroyed, and its tracker with it, by the last holder to leave. */
  function LeavesRoot(s: State, h: RootHolder): State {
    s.(root := s.root - {h}, destroyed := s.destroyed || s.root - {h} == {})
  }

  function RunAdd(s: State, t: Tid, at: AddPc): State {
    match at
    case TakeId => At(s, t, Adding(Construct(s.nextId + 1))).(nextId := s.nextId + 1, adder := s.adder[s.nextId + 1 := t])
    // the argument is moved into the reference
    case Construct(id) =>
      At(s, t, Adding(InsertLock(id))).(root := s.root - {Argument(t)} + {Reference(id)}, holders := s.holders[id := {Local(t)}])
    case InsertLock(id) =>
      if s.writer.None? && s.readers == {} then At(s, t, Adding(Insert(id))).(writer := Some(t)) else s
    case Insert(id) => At(s, t, Adding(InsertUnlock(id))).(listed := s.listed + {id}, inserted := s.inserted + {id})
    case InsertUnlock(id) => At(s, t, Idle).(writer := None)
  }

  function RunRelease(s: State, t: Tid, id: Id, at: ReleasePc): State {
    match at
    case EraseLock =>
      if s.writer.None? && s.readers == {} then At(s, t, Releasing(id, Erase)).(writer := Some(t)) else s
    case Erase => At(s, t, Releasing(id, EraseUnlock)).(listed := s.listed - {id}, erased := s.erased + {id})
    case EraseUnlock => At(s, t, Releasing(id, DropRoot)).(writer := None)
    case DropRoot => LeavesRoot(At(s, t, Idle).(dropped := s.dropped + {id}), Reference(id))
  }

  function Run(s: State, t: Tid): State {
    match PcOf(s, t)
    case Idle => s
    case Adding(at) => RunAdd(s, t, at)
    case Releasing(id, at) => RunRelease(s, t, id, at)
    case ReadLock => if s.writer.None? then At(s, t, Reading).(readers := s.readers + {t}) else s
    case Reading => LeavesRoot(At(s, t, Idle).(readers := s.readers - {t}), Argument(t))
  }

  /** While reading, a listed reference that still has holders gets one more. */
  function Visits(s: State, t: Tid, id: Id): State {
    if PcOf(s, t) == Reading && id in s.listed && HoldersOf(s, id) != {} then
      s.(holders := s.holders[id := s.holders[id] + {Local(t)}])
    else s
  }

  /** The last holder to let go runs the destructor. */
  function LetsGo(s: State, t: Tid, id: Id, h: Holder): State {
    if id !in s.holders || h !in s.holders[id] || (h.Local? && h.tid != t) then s
    else
      var s' := s.(holders := s.holders[id := s.holders[id] - {h}]);
      if s.holders[id] - {h} != {} then s' else At(s', t, Releasing(id, EraseLock)).(releaser := s.releaser[id := t])
  }

  function Step(s: State, e: Event): State {
    match e
    case Begin(t, request) =>
      if !PcOf(s, t).Idle? then s
      else
        match request {
          case Add(owner) => if External(owner) in s.root then At(s, t, Adding(TakeId)).(root := s.root + {Argument(t)}) else s
          case Release(id, h) => LetsGo(s, t, id, h)
          case Read(owner) => if External(owner) in s.root then At(s, t, ReadLock).(root := s.root + {Argument(t)}) else s
        }
    case Go(t) => Run(s, t)
    case Visit(t, id) => Visits(s, t, id)
    case Share(id, of, to) =>
      if of in HoldersOf(s, id) && !IsAdding(s, id, of) then s.(holders := s.holders[id := s.holders[id] + {Copy(to)}]) else s
    case ShareRoot(from, to) => if External(from) in s.root then s.(root := s.root + {External(to)}) else s
    case LeaveRoot(n) => if External(n) in s.root then LeavesRoot(s, External(n)) else s
  }

  /** A local of a thread inside AddReference has not been returned yet. */
  predicate IsAdding(s: State, id: Id, h: Holder) {
    h.Local? && Inserts(PcOf(s, h.tid), id)
  }

  /** Has constructed the reference with this id and not returned it yet. */
  predicate Inserts(pc: Pc, id: Id) {
    pc.Adding? && !pc.add.TakeId? && !pc.add.Construct? && pc.add.id == id
  }

  function Exec(s: State, es: seq<Event>): State {
    if es == [] then s else Step(Exec(s, es[..|es| - 1]), es[|es| - 1])
  }

  // ---------------------------------------------------------------- the invariant

  predicate HasWriteLock(pc: Pc) {
    match pc
    case Adding(at) => at.Insert? || at.InsertUnlock?
    case Releasing(_, at) => at.Erase? || at.EraseUnlock?
    case _ => false
  }

  predicate Calls(pc: Pc) {
    match pc
    case Adding(at) => at.TakeId? || at.Construct?
    case ReadLock => true
    case Reading => true
    case _ => false
  }

  predicate ThreadFacts(s: State, t: Tid, pc: Pc) {
    && (Calls(pc) ==> Argument(t) in s.root)
    && (HasWriteLock(pc) <==> s.writer == Some(t))
    && (pc == Reading <==> t in s.readers)
    && (pc.Adding? && pc.add.Construct? ==> pc.add.id in s.adder && s.adder[pc.add.id] == t && pc.add.id !in s.holders)
    && (pc.Adding? && !pc.add.Construct? && !pc.add.TakeId? ==>
          && pc.add.id in s.adder && s.adder[pc.add.id] == t
          && pc.add.id in s.holders && Local(t) in s.holders[pc.add.id]
          && (pc.add.id in s.inserted <==> pc.add.InsertUnlock?))
    && (pc.Releasing? ==>
          && pc.id in s.releaser && s.releaser[pc.id] == t && pc.id !in s.dropped
          && (pc.id in s.erased <==> pc.release.EraseUnlock? || pc.release.DropRoot?))
  }

  predicate IdFacts(s: State, id: Id) {
    && (id in s.adder ==> id <= s.nextId)
    && (id in s.holders ==> id in s.adder)
    && (Reference(id) in s.root <==> id in s.holders && id !in s.dropped)
    && (id in s.inserted ==> id in s.holders)
    && (id in s.listed <==> id in s.inserted && id !in s.erased)
    && (id in s.erased ==> id in s.releaser)
    && (id in s.dropped ==> id in s.erased)
    && (id in s.releaser <==> id in s.holders && s.holders[id] == {})
    && (id in s.releaser ==> id in s.inserted)
    && (id in s.holders && id !in s.inserted ==> Inserts(PcOf(s, s.adder[id]), id))
    && (id in s.releaser && id !in s.dropped ==> PcOf(s, s.releaser[id]).Releasing? && PcOf(s, s.releaser[id]).id == id)
  }

  ghost predicate Inv(s: State) {
    && (forall t: Tid :: ThreadFacts(s, t, PcOf(s, t)))
    && (forall id: Id :: IdFacts(s, id))
    && (s.destroyed <==> s.root == {})
    && (s.writer.Some? ==> s.readers == {})
  }

  function IdOf(pc: Pc): Id {
    match pc
    case Adding(at) => if at.TakeId? then 0 else at.id
    case Releasing(id, _) => id
    case _ => 0
  }

  /** What is known about one thread and the id it works on. */
  lemma Known(s: State, t: Tid, id: Id)
    requires Inv(s)
    ensures ThreadFacts(s, t, PcOf(s, t)) && IdFacts(s, IdOf(PcOf(s, t))) && IdFacts(s, id)
  {
  }

  lemma AddKeepsInv(s: State, t: Tid, at: AddPc)
    requires Inv(s) && PcOf(s, t) == Adding(at)
    ensures Inv(RunAdd(s, t, at))
  {
    var s' := RunAdd(s, t, at);
    forall u: Tid ensures ThreadFacts(s', u, PcOf(s', u)) { AddKeepsThread(s, t, at, u); }
    forall id: Id ensures IdFacts(s', id) { AddKeepsId(s, t, at, id); }
    Known(s, t, 0);
  }

  lemma AddKeepsThread(s: State, t: Tid, at: AddPc, u: Tid)
    requires Inv(s) && PcOf(s, t) == Adding(at)
    ensures ThreadFacts(RunAdd(s, t, at), u, PcOf(RunAdd(s, t, at), u))
  {
    Known(s, t, s.nextId + 1);
    Known(s, u, s.nextId + 1);
    assert s.writer.Some? ==> s.readers == {};
    hide Inv;
    if u == t { AddKeepsOwn(s, t, at); } else { AddKeepsOther(s, t, at, u); }
  }

  lemma AddKeepsOwn(s: State, t: Tid, at: AddPc)
    requires PcOf(s, t) == Adding(at) && ThreadFacts(s, t, Adding(at)) && (s.writer.Some? ==> s.readers == {})
    requires IdFacts(s, IdOf(Adding(at))) && IdFacts(s, s.nextId + 1)
    ensures ThreadFacts(RunAdd(s, t, at), t, PcOf(RunAdd(s, t, at), t))
  {
  }

  lemma AddKeepsOther(s: State, t: Tid, at: AddPc, u: Tid)
    requires u != t && PcOf(s, t) == Adding(at) && ThreadFacts(s, t, Adding(at)) && ThreadFacts(s, u, PcOf(s, u))
    requires IdFacts(s, IdOf(Adding(at))) && IdFacts(s, IdOf(PcOf(s, u))) && IdFacts(s, s.nextId + 1)
    ensures ThreadFacts(RunAdd(s, t, at), u, PcOf(RunAdd(s, t, at), u))
  {
  }

  lemma AddKeepsId(s: State, t: Tid, at: AddPc, id: Id)
    requires Inv(s) && PcOf(s, t) == Adding(at)
    ensures IdFacts(RunAdd(s, t, at), id)
  {
    Known(s, t, s.nextId + 1);
    Known(s, t, id);
    hide Inv;
  }

  lemma ReleaseKeepsInv(s: State, t: Tid, id: Id, at: ReleasePc)
    requires Inv(s) && PcOf(s, t) == Releasing(id, at)
    ensures Inv(RunRelease(s, t, id, at))
  {
    var s' := RunRelease(s, t, id, at);
    Known(s, t, id);
    forall u: Tid ensures ThreadFacts(s', u, PcOf(s', u)) { Known(s, u, id); }
    forall i: Id ensures IdFacts(s', i) { Known(s, t, i); }
  }

  lemma ReadKeepsInv(s: State, t: Tid)
    requires Inv(s) && (PcOf(s, t) == ReadLock || PcOf(s, t) == Reading)
    ensures Inv(Run(s, t))
  {
    var s' := Run(s, t);
    Known(s, t, 0);
    forall u: Tid ensures ThreadFacts(s', u, PcOf(s', u)) { Known(s, u, 0); }
    forall i: Id ensures IdFacts(s', i) { Known(s, t, i); }
  }

  lemma VisitKeepsInv(s: State, t: Tid, id: Id)
    requires Inv(s)
    ensures Inv(Visits(s, t, id))
  {
    var s' := Visits(s, t, id);
    forall u: Tid ensures ThreadFacts(s', u, PcOf(s', u)) { Known(s, u, id); }
    forall i: Id ensures IdFacts(s', i) { Known(s, t, i); }
  }

  lemma LetsGoKeepsInv(s: State, t: Tid, id: Id, h: Holder)
    requires Inv(s) && PcOf(s, t).Idle?
    ensures Inv(LetsGo(s, t, id, h))
  {
    var s' := LetsGo(s, t, id, h);
    forall u: Tid ensures ThreadFacts(s', u, PcOf(s', u)) { LetsGoKeepsThread(s, t, id, h, u); }
    forall i: Id ensures IdFacts(s', i) { LetsGoKeepsId(s, t, id, h, i); }
  }

  lemma LetsGoKeepsThread(s: State, t: Tid, id: Id, h: Holder, u: Tid)
    requires Inv(s) && PcOf(s, t).Idle?
    ensures ThreadFacts(LetsGo(s, t, id, h), u, PcOf(LetsGo(s, t, id, h), u))
  {
    Known(s, t, id);
    Known(s, u, id);
    hide Inv;
  }

  lemma LetsGoKeepsId(s: State, t: Tid, id: Id, h: Holder, i: Id)
    requires Inv(s) && PcOf(s, t).Idle?
    ensures IdFacts(LetsGo(s, t, id, h), i)
  {
    Known(s, t, i);
    if i == id && LetsGo(s, t, id, h) != s { LastOneInserted(s, t, id, h); }
    hide Inv;
  }

  /** The thread still inserting a reference holds it, so it is never let go before. */
  lemma LastOneInserted(s: State, t: Tid, id: Id, h: Holder)
    requires Inv(s) && PcOf(s, t).Idle? && LetsGo(s, t, id, h) != s
    ensures s.holders[id] - {h} == {} ==> id in s.inserted
  {
    Known(s, t, id);
    if id !in s.inserted {
      Known(s, s.adder[id], id);
      assert Local(s.adder[id]) in s.holders[id] - {h};
    }
  }

  lemma OthersKeepInv(s: State, e: Event)
    requires Inv(s) && (e.Share? || e.ShareRoot? || e.LeaveRoot?)
    ensures Inv(Step(s, e))
  {
    var s' := Step(s, e);
    forall u: Tid ensures ThreadFacts(s', u, PcOf(s', u)) { Known(s, u, 0); }
    forall i: Id ensures IdFacts(s', i) { Known(s, 0, i); }
  }

  lemma BeginKeepsInv(s: State, t: Tid, request: Request)
    requires Inv(s) && PcOf(s, t).Idle?
    ensures Inv(Step(s, Begin(t, request)))
  {
    if request.Release? {
      LetsGoKeepsInv(s, t, request.id, request.holder);
    } else {
      var s' := Step(s, Begin(t, request));
      forall u: Tid ensures ThreadFacts(s', u, PcOf(s', u)) { BeginKeepsThread(s, t, request, u); }
      forall i: Id ensures IdFacts(s', i) { BeginKeepsId(s, t, request, i); }
    }
  }

  lemma BeginKeepsThread(s: State, t: Tid, request: Request, u: Tid)
    requires Inv(s) && PcOf(s, t).Idle? && !request.Release?
    ensures ThreadFacts(Step(s, Begin(t, request)), u, PcOf(Step(s, Begin(t, request)), u))
  {
    Known(s, u, 0);
    hide Inv, LetsGo;
  }

  lemma BeginKeepsId(s: State, t: Tid, request: Request, i: Id)
    requires Inv(s) && PcOf(s, t).Idle? && !request.Release?
    ensures IdFacts(Step(s, Begin(t, request)), i)
  {
    Known(s, t, i);
    hide Inv, LetsGo;
  }

  lemma StepKeepsInv(s: State, e: Event)
    requires Inv(s)
    ensures Inv(Step(s, e))
  {
    hide Inv;
    match e
    case Begin(t, request) => if PcOf(s, t).Idle? { BeginKeepsInv(s, t, request); }
    case Go(t) =>
      match PcOf(s, t) {
        case Idle =>
        case Adding(at) => AddKeepsInv(s, t, at);
        case Releasing(id, at) => ReleaseKeepsInv(s, t, id, at);
        case _ => ReadKeepsInv(s, t);
      }
    case Visit(t, id) => VisitKeepsInv(s, t, id);
    case _ => OthersKeepInv(s, e);
  }

  lemma {:induction false} ExecKeepsInv(es: seq<Event>)
    ensures Inv(Exec(INITIAL, es))
  {
    hide Step;
    if es != [] {
      ExecKeepsInv(es[..|es| - 1]);
      StepKeepsInv(Exec(INITIAL, es[..|es| - 1]), es[|es| - 1]);
    }
  }

  // ---------------------------------------------------------------- what holds in every run

  /** Uses the tracker: takes an id from it, waits for its lock or holds it. */
  predicate UsesTracker(pc: Pc) {
    pc.Adding? || pc.ReadLock? || pc.Reading? || (pc.Releasing? && !pc.release.DropRoot?)
  }

  /** In every run the tracker lists exactly the ids inserted and not yet erased;
      insertion precedes erasure; whoever uses the tracker finds the root, which
      owns it, alive; a listed reference keeps the root alive; and two ids are
      never in use by two calls at once. */
  lemma TrackerAgrees(es: seq<Event>, id: Id, t: Tid, u: Tid)
    ensures var s := Exec(INITIAL, es);
            && (id in s.listed <==> id in s.inserted && id !in s.erased)
            && (id in s.erased ==> id in s.inserted)
            && (UsesTracker(PcOf(s, t)) ==> !s.destroyed)
            && (id in s.listed ==> !s.destroyed)
            && (PcOf(s, t).Releasing? && PcOf(s, t).release.EraseUnlock? ==> PcOf(s, t).id !in s.listed)
            && (PcOf(s, t).Releasing? && PcOf(s, t).release.EraseLock? ==> PcOf(s, t).id in s.listed)
            && (t != u && HasWriteLock(PcOf(s, t)) ==> !HasWriteLock(PcOf(s, u)) && PcOf(s, u) != Reading)
            && (t != u && PcOf(s, t).Releasing? && PcOf(s, u).Releasing? ==> PcOf(s, t).id != PcOf(s, u).id)
  {
    ExecKeepsInv(es);
    var s := Exec(INITIAL, es);
    Known(s, t, id);
    Known(s, u, id);
    hide Exec;
  }

  /** Once the root is gone every reference has been erased from the tracker. */
  lemma NothingListedInTheEnd(es: seq<Event>)
    requires Exec(INITIAL, es).destroyed
    ensures var s := Exec(INITIAL, es);
            s.listed == {} && forall id :: id in s.inserted ==> id in s.erased
  {
    var s := Exec(INITIAL, es);
    forall id: Id ensures id !in s.listed { TrackerAgrees(es, id, 0, 0); }
    forall id | id in s.inserted ensures id in s.erased { TrackerAgrees(es, id, 0, 0); }
  }

  // ---------------------------------------------------------------- holders

  predicate Releases(es: seq<Event>, id: Id, h: Holder) {
    exists i :: 0 <= i < |es| && es[i].Begin? && es[i].request == Release(id, h)
  }

  lemma StepKeepsHolder(s: State, e: Event, id: Id, h: Holder)
    requires Inv(s) && h in HoldersOf(s, id) && !(e.Begin? && e.request == Release(id, h))
    ensures h in HoldersOf(Step(s, e), id)
  {
    var t := if e.Begin? || e.Go? || e.Visit? then e.tid else 0;
    Known(s, t, id);
    hide Inv, IdFacts, LeavesRoot;
  }

  lemma {:induction false} RunKeepsHolder(es: seq<Event>, more: seq<Event>, id: Id, h: Holder)
    requires h in HoldersOf(Exec(INITIAL, es), id) && !Releases(more, id, h)
    ensures h in HoldersOf(Exec(INITIAL, es + more), id)
    decreases |more|
  {
    hide Step, HoldersOf;
    if more == [] {
      assert es + more == es;
    } else {
      var last := more[|more| - 1];
      assert (es + more)[..|es + more| - 1] == es + more[..|more| - 1];
      RunKeepsHolder(es, more[..|more| - 1], id, h);
      ExecKeepsInv(es + more[..|more| - 1]);
      StepKeepsHolder(Exec(INITIAL, es + more[..|more| - 1]), last, id, h);
    }
  }

  /** A reference that has been listed stays listed, and the root alive, as long as any one
      of its holders does not let go, whatever all others do. */
  lemma HolderKeepsListed(es: seq<Event>, more: seq<Event>, id: Id, h: Holder)
    requires h in HoldersOf(Exec(INITIAL, es), id) && id in Exec(INITIAL, es).listed && !Releases(more, id, h)
    ensures var s := Exec(INITIAL, es + more);
            h in HoldersOf(s, id) && id in s.listed && Reference(id) in s.root && !s.destroyed
  {
    RunKeepsHolder(es, more, id, h);
    ExecKeepsInv(es);
    ExecKeepsInv(es + more);
    Known(Exec(INITIAL, es), 0, id);
    Known(Exec(INITIAL, es + more), 0, id);
    hide Exec, Inv;
    InsertedStays(es, more, id);
    NotDestroyed(Exec(INITIAL, es + more), Reference(id));
  }

  lemma {:induction false} InsertedStays(es: seq<Event>, more: seq<Event>, id: Id)
    requires id in Exec(INITIAL, es).inserted
    ensures id in Exec(INITIAL, es + more).inserted
    decreases |more|
  {
    hide Step;
    if more == [] {
      assert es + more == es;
    } else {
      var before := es + more[..|more| - 1];
      assert (es + more)[..|es + more| - 1] == before;
      InsertedStays(es, more[..|more| - 1], id);
      StepKeepsInserted(Exec(INITIAL, before), more[|more| - 1], id);
    }
  }

  /** What a step other than its own departure leaves of an owner, and of what was inserted. */
  predicate Lasts(s: State, s': State) {
    && s.inserted <= s'.inserted
    && forall h :: h in s.root && h.External? ==> h in s'.root
  }

  lemma AddLasts(s: State, t: Tid, at: AddPc)
    ensures Lasts(s, RunAdd(s, t, at))
  {
  }

  lemma ReleaseLasts(s: State, t: Tid, id: Id, at: ReleasePc)
    ensures Lasts(s, RunRelease(s, t, id, at))
  {
  }

  lemma RunLasts(s: State, t: Tid)
    ensures Lasts(s, Run(s, t))
  {
    hide RunAdd, RunRelease;
    match PcOf(s, t)
    case Adding(at) => AddLasts(s, t, at);
    case Releasing(id, at) => ReleaseLasts(s, t, id, at);
    case _ =>
  }

  lemma LetsGoLasts(s: State, t: Tid, id: Id, h: Holder)
    ensures Lasts(s, LetsGo(s, t, id, h))
  {
  }

  lemma StepLasts(s: State, e: Event)
    requires !e.LeaveRoot?
    ensures Lasts(s, Step(s, e))
  {
    hide Run, LetsGo, HoldersOf;
    match e
    case Go(t) => RunLasts(s, t);
    case Begin(t, request) => if request.Release? { LetsGoLasts(s, t, request.id, request.holder); }
    case _ =>
  }

  lemma StepKeepsInserted(s: State, e: Event, id: Id)
    requires id in s.inserted
    ensures id in Step(s, e).inserted
  {
    if !e.LeaveRoot? {
      hide Step;
      StepLasts(s, e);
    }
  }

  /** A thread that reads the list and finds a reference alive, and whoever is given a copy,
      hold it from then on; and so does a new owner of the root. */
  lemma WhoTakesHolds(s: State, t: Tid, id: Id, of: Holder, n: nat, m: nat)
    ensures PcOf(s, t) == Reading && id in s.listed && HoldersOf(s, id) != {} ==> Local(t) in HoldersOf(Step(s, Visit(t, id)), id)
    ensures of in HoldersOf(s, id) && of.Copy? ==> Copy(n) in HoldersOf(Step(s, Share(id, of, n)), id)
    ensures External(n) in s.root ==> External(m) in Step(s, ShareRoot(n, m)).root
  {
  }

  /** Whoever leaves the root holds it no longer, and the last one to leave destroys it. */
  lemma WhoLeavesIsGone(s: State, n: nat)
    ensures External(n) !in Step(s, LeaveRoot(n)).root
    ensures s.root == {External(n)} ==> Step(s, LeaveRoot(n)).destroyed
  {
  }

  predicate Leaves(es: seq<Event>, n: nat) {
    exists i :: 0 <= i < |es| && es[i] == LeaveRoot(n)
  }

  /** An owner elsewhere keeps the root alive until it leaves. */
  lemma {:induction false} OwnerKeepsRoot(es: seq<Event>, more: seq<Event>, n: nat)
    requires External(n) in Exec(INITIAL, es).root && !Leaves(more, n)
    ensures External(n) in Exec(INITIAL, es + more).root && !Exec(INITIAL, es + more).destroyed
    decreases |more|
  {
    ExecKeepsInv(es + more);
    if more == [] {
      assert es + more == es;
    } else {
      var before := es + more[..|more| - 1];
      assert (es + more)[..|es + more| - 1] == before;
      OwnerKeepsRoot(es, more[..|more| - 1], n);
      hide Inv;
      StepKeepsOwner(Exec(INITIAL, before), more[|more| - 1], n);
      hide Step;
      assert !Exec(INITIAL, es + more).destroyed by { NotDestroyed(Exec(INITIAL, es + more), External(n)); }
    }
  }

  lemma StepKeepsOwner(s: State, e: Event, n: nat)
    requires External(n) in s.root && e != LeaveRoot(n)
    ensures External(n) in Step(s, e).root
  {
    if !e.LeaveRoot? {
      hide Step;
      StepLasts(s, e);
    }
  }

  lemma NotDestroyed(s: State, h: RootHolder)
    requires Inv(s) && h in s.root
    ensures !s.destroyed
  {
  }

  // ---------------------------------------------------------------- nobody waits for ever

  /** Of the threads inside a call one can always take its next step: the lock is held by
      a thread that goes on, and given back. */
  lemma SomeoneGoesOn(es: seq<Event>, t: Tid) returns (u: Tid)
    requires !PcOf(Exec(INITIAL, es), t).Idle?
    ensures Run(Exec(INITIAL, es), u) != Exec(INITIAL, es)
  {
    var s := Exec(INITIAL, es);
    ExecKeepsInv(es);
    Known(s, t, 0);
    u := t;
    if s.writer.Some? {
      u := s.writer.value;
      Known(s, u, 0);
    } else if s.readers != {} {
      u :| u in s.readers;
      Known(s, u, 0);
    }
    hide Exec, Inv;
    Moves(s, u);
  }

  /** A thread that need not wait takes a step. */
  lemma Moves(s: State, u: Tid)
    requires !PcOf(s, u).Idle? && (s.writer.None? || s.writer == Some(u)) && (s.readers == {} || PcOf(s, u) == Reading)
    requires HasWriteLock(PcOf(s, u)) <==> s.writer == Some(u)
    ensures Run(s, u) != s
  {
    assert PcOf(s, u) != PcOf(Run(s, u), u);
  }
}
