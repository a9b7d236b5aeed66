/** COM references: the count inside a ComUnknownBase, the ComPointers that share
    it, and the references that callers hold raw. A count is compared with the
    pointers that exist, not with another counter. */
module ComPointers {

  class ComUnknown {
    var refCount: int
    var isShared: bool
    var deleted: nat

    constructor ()
      ensures refCount == 1 && !isShared && deleted == 0
    {
      refCount, isShared, deleted := 1, false, 0;
    }

    method BaseAddRef() returns (result: int)
      requires refCount >= 1
      modifies this
      ensures refCount == old(refCount) + 1 && isShared && deleted == old(deleted)
      ensures result == refCount
    {
      isShared := true;
      refCount := refCount + 1;
      result := refCount;
      assert result != 1;
    }

    /** An object that was never shared is decremented without interlock, so
        whoever takes that branch must be its only owner. */
    method BaseRelease() returns (result: int)
      requires refCount >= 1 && (!isShared ==> refCount == 1)
      modifies this
      ensures refCount == old(refCount) - 1 && isShared == old(isShared)
      ensures deleted == old(deleted) + if refCount == 0 then 1 else 0
      ensures result == refCount
    {
      if isShared {
        refCount := refCount - 1;
      } else {
        assert refCount == 1;
        refCount := refCount - 1;
      }
      result := refCount;
      assert result != -1;
      if result == 0 { deleted := deleted + 1; }
    }
  }

  // ---------------------------------------------------------------- counting

  ghost function Holders(values: map<ComPointer, ComUnknown?>, o: ComUnknown): set<ComPointer> {
    set q | q in values && values[q] == o
  }

  ghost function Count(values: map<ComPointer, ComUnknown?>, o: ComUnknown): nat {
    |Holders(values, o)|
  }

  function One(b: bool): nat {
    if b then 1 else 0
  }

  lemma CountAfterUpdate(values: map<ComPointer, ComUnknown?>, q: ComPointer, v: ComUnknown?, o: ComUnknown)
    ensures Count(values[q := v], o) == Count(values, o) - One(q in values && values[q] == o) + One(v == o)
  {
    var before, after := Holders(values, o), Holders(values[q := v], o);
    if v == o { assert after == before + {q}; } else { assert after == before - {q}; }
  }

  lemma CountAfterRemoval(values: map<ComPointer, ComUnknown?>, q: ComPointer, o: ComUnknown)
    requires q in values
    ensures Count(values - {q}, o) == Count(values, o) - One(values[q] == o)
  {
    assert Holders(values - {q}, o) == Holders(values, o) - {q};
  }

  lemma HeldIsCounted(values: map<ComPointer, ComUnknown?>, q: ComPointer, o: ComUnknown)
    requires q in values && values[q] == o
    ensures Count(values, o) >= 1
  {
    assert q in Holders(values, o);
  }

  /** A pointer moved into c, emptied, set to v, and c out of scope again. */
  lemma MovedAndSet(values: map<ComPointer, ComUnknown?>, c: ComPointer, q: ComPointer, v: ComUnknown?)
    requires c !in values && q in values
    ensures values[c := values[q]][q := null][q := v] - {c} == values[q := v]
  {
  }

  lemma SetTwice(values: map<ComPointer, ComUnknown?>, q: ComPointer, v: ComUnknown?)
    ensures values[q := null][q := v] == values[q := v]
  {
  }

  lemma MovedAndSwapped(values: map<ComPointer, ComUnknown?>, c: ComPointer, q: ComPointer, r: ComPointer)
    requires c !in values && q in values && r in values && q != r
    ensures values[c := values[q]][q := null][q := values[r]][r := null] - {c} == values[q := values[r]][r := null]
  {
  }

  // ---------------------------------------------------------------- the ledger

  /** All objects, all ComPointers in scope, and the references that some caller
      owns as a raw pointer. */
  class Ledger {
    ghost var objects: set<ComUnknown>
    ghost var pointers: set<ComPointer>
    ghost var raw: multiset<ComUnknown>

    ghost constructor ()
      ensures objects == {} && pointers == {} && raw == multiset{} && Conserved()
    {
      objects, pointers, raw := {}, {}, multiset{};
    }

    ghost function Values(): (values: map<ComPointer, ComUnknown?>)
      reads this, pointers
      ensures values.Keys == pointers && forall q :: q in pointers ==> values[q] == q.p
    {
      map q | q in pointers :: q.p
    }

    ghost function Owners(o: ComUnknown): nat
      reads this, pointers
    {
      Count(Values(), o) + raw[o]
    }

    /** Every object counts exactly its owners, has been deleted once if it has
        none and never otherwise, and counts as unshared only while at most one
        owner is left. */
    ghost predicate Conserved()
      reads this, pointers, objects
    {
      && (forall q :: q in pointers && q.p != null ==> q.p in objects)
      && (forall o :: o in raw ==> o in objects)
      && (forall o :: o in objects ==>
            && o.refCount == Owners(o)
            && o.deleted == One(o.refCount == 0)
            && (!o.isShared ==> o.refCount <= 1))
    }
  }

  lemma HeldIsAlive(w: Ledger, q: ComPointer)
    requires w.Conserved() && q in w.pointers && q.p != null
    ensures q.p in w.objects && q.p.refCount >= 1
  {
    HeldIsCounted(w.Values(), q, q.p);
  }

  /** A new object starts with one reference, held raw by whoever made it. */
  method NewObject(ghost w: Ledger) returns (o: ComUnknown)
    requires w.Conserved()
    modifies w`objects, w`raw
    ensures w.Conserved() && fresh(o) && o.refCount == 1 && !o.isShared
    ensures w.objects == old(w.objects) + {o} && w.raw == old(w.raw) + multiset{o} && w.Values() == old(w.Values())
  {
    ghost var values := w.Values();
    o := new ComUnknown();
    assert o !in w.raw;
    assert Holders(values, o) == {};
    w.objects, w.raw := w.objects + {o}, w.raw + multiset{o};
    assert w.Values() == values;
    forall u | u in w.objects ensures w.Owners(u) == u.refCount {
      if u == o {
        assert w.Owners(o) == 0 + 1;
      } else {
        assert w.raw[u] == old(w.raw[u]) && u.refCount == old(w.Owners(u));
      }
    }
  }

  /** A caller adds a reference of its own. */
  method AddRefRaw(o: ComUnknown, ghost w: Ledger)
    requires w.Conserved() && o in w.objects && o.refCount >= 1
    modifies w`raw, o
    ensures w.Conserved() && w.raw == old(w.raw) + multiset{o} && w.Values() == old(w.Values())
  {
    ghost var values := w.Values();
    var _ := o.BaseAddRef();
    w.raw := w.raw + multiset{o};
    assert w.Values() == values;
    assert forall u :: u in w.objects ==> w.raw[u] == old(w.raw)[u] + One(u == o);
  }

  method ReleaseRaw(o: ComUnknown, ghost w: Ledger)
    requires w.Conserved() && o in w.raw
    modifies w`raw, o
    ensures w.Conserved() && w.raw == old(w.raw) - multiset{o} && w.Values() == old(w.Values())
  {
    ghost var values := w.Values();
    var _ := o.BaseRelease();
    w.raw := w.raw - multiset{o};
    assert w.Values() == values;
    forall u | u in w.objects ensures w.Owners(u) == Count(values, u) + old(w.raw)[u] - One(u == o) { }
  }

  /** The raw references that are left when one to v, if any, is handed over. */
  ghost function HandedOver(raw: multiset<ComUnknown>, v: ComUnknown?): multiset<ComUnknown> {
    if v != null then raw - multiset{v} else raw
  }

  lemma TakenBack(raw: multiset<ComUnknown>, o: ComUnknown)
    ensures HandedOver(raw + multiset{o}, o) == raw
  {
  }

  class ComPointer {
    var p: ComUnknown?

    constructor (ghost w: Ledger)
      requires w.Conserved()
      modifies w`pointers
      ensures w.Conserved() && w.Values() == old(w.Values())[this := null]
      ensures w.pointers == old(w.pointers) + {this} && p == null
    {
      p := null;
      new;
      ghost var before := w.Values();
      w.pointers := w.pointers + {this};
      assert w.Values() == before[this := null];
      forall o ensures Count(w.Values(), o) == Count(before, o) { CountAfterUpdate(before, this, null, o); }
    }

    constructor Copy(other: ComPointer, ghost w: Ledger)
      requires w.Conserved() && other in w.pointers
      modifies w`pointers, w.objects
      ensures w.Conserved() && w.Values() == old(w.Values())[this := old(other.p)]
      ensures w.pointers == old(w.pointers) + {this}
    {
      p := other.p;
      new;
      ghost var before := w.Values();
      if p != null {
        HeldIsCounted(before, other, p);
        var _ := p.BaseAddRef();
      }
      w.pointers := w.pointers + {this};
      assert w.Values() == before[this := p];
      forall o ensures Count(w.Values(), o) == Count(before, o) + One(p == o) { CountAfterUpdate(before, this, p, o); }
    }

    constructor Move(other: ComPointer, ghost w: Ledger)
      requires w.Conserved() && other in w.pointers
      modifies w`pointers, other
      ensures w.Conserved() && w.Values() == old(w.Values())[this := old(other.p)][other := null]
      ensures w.pointers == old(w.pointers) + {this} && p == old(other.p) && other.p == null
    {
      p := other.p;
      new;
      ghost var before := w.Values();
      other.p := null;
      w.pointers := w.pointers + {this};
      ghost var middle: map<ComPointer, ComUnknown?> := before[this := p];
      assert w.Values() == middle[other := null];
      forall o ensures Count(w.Values(), o) == Count(before, o) {
        CountAfterUpdate(before, this, p, o);
        CountAfterUpdate(middle, other, null, o);
      }
    }

    /** The destructor, after which the pointer is out of scope. */
    method Destroy(ghost w: Ledger)
      requires w.Conserved() && this in w.pointers
      modifies w`pointers, w.objects
      ensures w.Conserved() && w.Values() == old(w.Values()) - {this}
      ensures w.pointers == old(w.pointers) - {this}
    {
      ghost var before := w.Values();
      if p != null {
        HeldIsCounted(before, this, p);
        var _ := p.BaseRelease();
      }
      w.pointers := w.pointers - {this};
      assert w.Values() == before - {this};
      forall o ensures Count(w.Values(), o) == Count(before, o) - One(p == o) { CountAfterRemoval(before, this, o); }
    }

    /** An empty pointer takes a reference of its own. */
    method Hold(v: ComUnknown?, ghost w: Ledger)
      requires w.Conserved() && this in w.pointers && p == null
      requires v != null ==> v in w.objects && v.refCount >= 1
      modifies this, w.objects
      ensures w.Conserved() && w.Values() == old(w.Values())[this := v] && p == v
    {
      hide Count, Holders;
      ghost var before := w.Values();
      assert before[this] == null;
      p := v;
      assert w.Values() == before[this := v];
      forall o ensures Count(w.Values(), o) == Count(before, o) + One(v == o) { CountAfterUpdate(before, this, v, o); }
      ghost var counts := map o | o in w.objects :: w.Owners(o);
      if p != null { var _ := p.BaseAddRef(); }
      assert w.Values() == before[this := v];
      assert forall o :: o in w.objects ==> w.Owners(o) == counts[o];
    }

    /** An empty pointer takes over a reference that was held raw. */
    method Adopt(v: ComUnknown?, ghost w: Ledger)
      requires w.Conserved() && this in w.pointers && p == null && (v != null ==> v in w.raw)
      modifies this, w`raw
      ensures w.Conserved() && w.Values() == old(w.Values())[this := v] && p == v
      ensures w.raw == HandedOver(old(w.raw), v)
    {
      ghost var before := w.Values();
      assert before[this] == null;
      p := v;
      if v != null { w.raw := w.raw - multiset{v}; }
      assert w.Values() == before[this := v];
      forall o ensures Count(w.Values(), o) == Count(before, o) + One(v == o) { CountAfterUpdate(before, this, v, o); }
    }

    method AssignCopy(other: ComPointer, ghost w: Ledger)
      requires w.Conserved() && this in w.pointers && other in w.pointers
      modifies this, w`pointers, w.objects
      ensures w.Conserved() && w.Values() == old(w.Values())[this := old(other.p)]
      ensures w.pointers == old(w.pointers)
    {
      if p != other.p {
        hide Ledger.Conserved, Ledger.Values;
        var cleanup := new ComPointer.Move(this, w);
        if other.p != null { HeldIsAlive(w, other); }
        Hold(other.p, w);
        cleanup.Destroy(w);
        MovedAndSet(old(w.Values()), cleanup, this, old(other.p));
      }
    }

    method AssignMove(other: ComPointer, ghost w: Ledger)
      requires w.Conserved() && this in w.pointers && other in w.pointers
      modifies this, other, w`pointers, w.objects
      ensures w.Conserved() && w.pointers == old(w.pointers)
      ensures w.Values() == if this == other then old(w.Values()) else old(w.Values())[this := old(other.p)][other := null]
    {
      if this != other {
        hide Ledger.Conserved, Ledger.Values;
        var cleanup := new ComPointer.Move(this, w);
        Swap(other, w);
        cleanup.Destroy(w);
        MovedAndSwapped(old(w.Values()), cleanup, this, other);
      }
    }

    /** Moving into an emptied pointer is the case p == null. */
    method Swap(other: ComPointer, ghost w: Ledger)
      requires w.Conserved() && this in w.pointers && other in w.pointers
      modifies this, other
      ensures w.Conserved() && w.Values() == old(w.Values())[this := old(other.p)][other := old(p)]
    {
      hide Count, Holders;
      ghost var before := w.Values();
      var mine := p;
      p := other.p;
      other.p := mine;
      ghost var middle: map<ComPointer, ComUnknown?> := before[this := p];
      assert w.Values() == middle[other := mine];
      forall o ensures Count(w.Values(), o) == Count(before, o) {
        CountAfterUpdate(before, this, p, o);
        CountAfterUpdate(middle, other, mine, o);
      }
    }

    method Release(ghost w: Ledger)
      requires w.Conserved() && this in w.pointers
      modifies this, w`pointers, w.objects
      ensures w.Conserved() && w.Values() == old(w.Values())[this := null]
      ensures w.pointers == old(w.pointers)
    {
      hide Ledger.Conserved, Ledger.Values;
      var cleanup := new ComPointer.Move(this, w);
      cleanup.Destroy(w);
      MovedAndSet(old(w.Values()), cleanup, this, null);
    }

    /** Takes over the caller's raw reference, unless the pointer holds the object
        already: then the caller still owes a release. */
    method SetNoAddRef(v: ComUnknown?, ghost w: Ledger)
      requires w.Conserved() && this in w.pointers && (v != null && v != p ==> v in w.raw)
      modifies this, w`pointers, w`raw, w.objects
      ensures w.Conserved() && w.Values() == old(w.Values())[this := v] && p == v
      ensures w.raw == if v != old(p) then HandedOver(old(w.raw), v) else old(w.raw)
      ensures w.pointers == old(w.pointers)
    {
      if v != p { ReplaceNoAddRef(v, w); }
    }

    method ReplaceNoAddRef(v: ComUnknown?, ghost w: Ledger)
      requires w.Conserved() && this in w.pointers && v != p && (v != null ==> v in w.raw)
      modifies this, w`pointers, w`raw, w.objects
      ensures w.Conserved() && w.Values() == old(w.Values())[this := v] && p == v
      ensures w.raw == HandedOver(old(w.raw), v) && w.pointers == old(w.pointers)
    {
      hide *;
      var cleanup := new ComPointer.Move(this, w);
      Adopt(v, w);
      cleanup.Destroy(w);
      MovedAndSet(old(w.Values()), cleanup, this, v);
      assert w.Values()[this] == p;
    }

    method SetAndAddRef(v: ComUnknown?, ghost w: Ledger)
      requires w.Conserved() && this in w.pointers && (v != null ==> v in w.objects && v.refCount >= 1)
      modifies this, w`pointers, w.objects
      ensures w.Conserved() && w.Values() == old(w.Values())[this := v]
      ensures w.pointers == old(w.pointers)
    {
      if v != p {
        hide Ledger.Conserved, Ledger.Values;
        var cleanup := new ComPointer.Move(this, w);
        Hold(v, w);
        cleanup.Destroy(w);
        MovedAndSet(old(w.Values()), cleanup, this, v);
      }
    }

    /** The caller becomes a raw owner. */
    method DetachNoRelease(ghost w: Ledger) returns (v: ComUnknown?)
      requires w.Conserved() && this in w.pointers
      modifies this, w`raw
      ensures w.Conserved() && v == old(p) && w.Values() == old(w.Values())[this := null]
      ensures w.raw == if v != null then old(w.raw) + multiset{v} else old(w.raw)
    {
      ghost var before := w.Values();
      v := p;
      p := null;
      if v != null { w.raw := w.raw + multiset{v}; }
      assert w.Values() == before[this := null];
      forall o ensures Count(w.Values(), o) == Count(before, o) - One(v == o) { CountAfterUpdate(before, this, null, o); }
    }
  }

  /** make_com: the new object's one reference goes to the pointer. */
  method MakeCom(ghost w: Ledger) returns (q: ComPointer)
    requires w.Conserved()
    modifies w, w.objects
    ensures w.Conserved() && fresh(q) && q.p != null && fresh(q.p)
    ensures w.Values() == old(w.Values())[q := q.p] && w.raw == old(w.raw)
    ensures w.objects == old(w.objects) + {q.p}
  {
    hide *;
    q := new ComPointer(w);
    var o := NewObject(w);
    q.SetNoAddRef(o, w);
    TakenBack(old(w.raw), o);
    SetTwice(old(w.Values()), q, o);
  }

  // ---------------------------------------------------------------- what conservation means

  /** An object has been deleted once when its last owner is gone, and not before. */
  lemma DeletedWhenUnowned(w: Ledger, o: ComUnknown)
    requires w.Conserved() && o in w.objects
    ensures o.deleted == 0 <==> o in w.raw || exists q :: q in w.pointers && q.p == o
    ensures o.deleted <= 1
  {
    if o.refCount == 0 {
      forall q | q in w.pointers && q.p == o ensures false { HeldIsCounted(w.Values(), q, o); }
    } else if o !in w.raw {
      assert Count(w.Values(), o) != 0;
      var q :| q in Holders(w.Values(), o);
    }
  }

  /** As long as nobody called AddRef the plain decrement is safe: there are not
      two owners to race. */
  lemma UnsharedHasOneOwner(w: Ledger, o: ComUnknown, q: ComPointer, r: ComPointer)
    requires w.Conserved() && o in w.objects && !o.isShared && q in w.pointers && q.p == o
    ensures o !in w.raw && (r in w.pointers && r.p == o ==> r == q)
  {
    HeldIsCounted(w.Values(), q, o);
    if r in w.pointers && r.p == o && r != q {
      assert {q, r} <= Holders(w.Values(), o);
      CountAtLeastTwo(w.Values(), q, r, o);
    }
  }

  lemma CountAtLeastTwo(values: map<ComPointer, ComUnknown?>, q: ComPointer, r: ComPointer, o: ComUnknown)
    requires q != r && q in values && values[q] == o && r in values && values[r] == o
    ensures Count(values, o) >= 2
  {
    CountAfterRemoval(values, q, o);
    HeldIsCounted(values - {q}, r, o);
  }

  // ---------------------------------------------------------------- whole programs

  /** One operation of a program on numbered pointers and loose raw references:
      pointers come into scope empty, copied or moved, and leave it at any time. */
  datatype Op =
    | Empty
    | CopyOf(from: nat)
    | MoveOf(from: nat)
    | Leave(at: nat)
    | AddRef(loose: nat)
    | LetGo(loose: nat)
    | Make(at: nat)
    | Assign(at: nat, from: nat)
    | MoveAssign(at: nat, from: nat)
    | Exchange(at: nat, from: nat)
    | Clear(at: nat)
    | Detach(at: nat)
    | Attach(at: nat, loose: nat)
    | Share(at: nat, loose: nat)

  ghost predicate InScope(w: Ledger, slots: seq<ComPointer>, loose: seq<ComUnknown>)
    reads w, w.pointers, w.objects
  {
    w.Conserved() && w.raw == multiset(loose) && w.pointers == SlotSet(slots) && Distinct(slots)
  }

  method Perform(op: Op, slots: seq<ComPointer>, loose: seq<ComUnknown>, ghost w: Ledger) returns (now: seq<ComPointer>, left: seq<ComUnknown>)
    requires InScope(w, slots, loose)
    modifies w, w.pointers, w.objects
    ensures InScope(w, now, left) && fresh(w.pointers - old(w.pointers))
    ensures w.objects >= old(w.objects) && fresh(w.objects - old(w.objects))
  {
    now, left := slots, loose;
    match op
    case Empty => now := Enter(slots, w);
    case CopyOf(from) => if from < |slots| { now := EnterCopy(slots, from, w); }
    case MoveOf(from) => if from < |slots| { now := EnterMove(slots, from, w); }
    case Leave(at) => if at < |slots| { now := LeaveScope(slots, at, w); }
    case AddRef(k) => if k < |loose| { left := AddLoose(loose, k, w); }
    case LetGo(k) => if k < |loose| { left := ReleaseLoose(loose, k, w); }
    case _ => left := PerformAt(op, slots, loose, w);
  }

  method PerformAt(op: Op, slots: seq<ComPointer>, loose: seq<ComUnknown>, ghost w: Ledger) returns (left: seq<ComUnknown>)
    requires InScope(w, slots, loose)
    modifies w, w.pointers, w.objects
    ensures InScope(w, slots, left) && w.objects >= old(w.objects) && fresh(w.objects - old(w.objects))
  {
    left := loose;
    match op
    case Make(at) => if at < |slots| { MakeInto(slots[at], w); }
    case Assign(at, from) => if at < |slots| && from < |slots| { slots[at].AssignCopy(slots[from], w); }
    case MoveAssign(at, from) => if at < |slots| && from < |slots| { slots[at].AssignMove(slots[from], w); }
    case Exchange(at, from) => if at < |slots| && from < |slots| { slots[at].Swap(slots[from], w); }
    case Clear(at) => if at < |slots| { slots[at].Release(w); }
    case Detach(at) => if at < |slots| { left := DetachFrom(slots[at], loose, w); }
    case Attach(at, k) => if at < |slots| && k < |loose| { left := AttachTo(slots[at], loose, k, w); }
    case Share(at, k) => if at < |slots| && k < |loose| { ShareWith(slots[at], loose, k, w); }
    case _ =>
  }

  lemma OneMoreSlot(slots: seq<ComPointer>, q: ComPointer)
    requires Distinct(slots) && q !in slots
    ensures Distinct(slots + [q]) && SlotSet(slots + [q]) == SlotSet(slots) + {q}
  {
  }

  lemma OneSlotLess(slots: seq<ComPointer>, at: nat)
    requires Distinct(slots) && at < |slots|
    ensures Distinct(slots[..at] + slots[at + 1..])
    ensures SlotSet(slots[..at] + slots[at + 1..]) == SlotSet(slots) - {slots[at]} && slots[at] in SlotSet(slots)
  {
    var rest := slots[..at] + slots[at + 1..];
    assert slots == slots[..at] + [slots[at]] + slots[at + 1..];
    assert forall i :: 0 <= i < |rest| ==> rest[i] == slots[if i < at then i else i + 1];
  }

  method Enter(slots: seq<ComPointer>, ghost w: Ledger) returns (now: seq<ComPointer>)
    requires w.Conserved() && w.pointers == SlotSet(slots) && Distinct(slots)
    modifies w`pointers
    ensures w.Conserved() && w.pointers == SlotSet(now) && Distinct(now) && fresh(w.pointers - old(w.pointers))
  {
    var q := new ComPointer(w);
    hide *;
    FreshSlot(slots, q, old(w.pointers));
    OneMoreSlot(slots, q);
    now := slots + [q];
  }

  method EnterCopy(slots: seq<ComPointer>, from: nat, ghost w: Ledger) returns (now: seq<ComPointer>)
    requires w.Conserved() && w.pointers == SlotSet(slots) && Distinct(slots) && from < |slots|
    modifies w`pointers, w.objects
    ensures w.Conserved() && w.pointers == SlotSet(now) && Distinct(now) && fresh(w.pointers - old(w.pointers))
  {
    OneSlotLess(slots, from);
    hide *;
    var q := new ComPointer.Copy(slots[from], w);
    FreshSlot(slots, q, old(w.pointers));
    OneMoreSlot(slots, q);
    now := slots + [q];
  }

  method EnterMove(slots: seq<ComPointer>, from: nat, ghost w: Ledger) returns (now: seq<ComPointer>)
    requires w.Conserved() && w.pointers == SlotSet(slots) && Distinct(slots) && from < |slots|
    modifies w`pointers, w.pointers
    ensures w.Conserved() && w.pointers == SlotSet(now) && Distinct(now) && fresh(w.pointers - old(w.pointers))
  {
    OneSlotLess(slots, from);
    hide *;
    var q := new ComPointer.Move(slots[from], w);
    FreshSlot(slots, q, old(w.pointers));
    OneMoreSlot(slots, q);
    now := slots + [q];
  }

  lemma FreshSlot(slots: seq<ComPointer>, q: ComPointer, pointers: set<ComPointer>)
    requires pointers == SlotSet(slots) && q !in pointers
    ensures q !in slots
  {
  }

  method LeaveScope(slots: seq<ComPointer>, at: nat, ghost w: Ledger) returns (now: seq<ComPointer>)
    requires w.Conserved() && w.pointers == SlotSet(slots) && Distinct(slots) && at < |slots|
    modifies w`pointers, w.objects
    ensures w.Conserved() && w.pointers == SlotSet(now) && Distinct(now) && w.pointers <= old(w.pointers)
  {
    hide *;
    OneSlotLess(slots, at);
    slots[at].Destroy(w);
    now := slots[..at] + slots[at + 1..];
  }

  method AddLoose(loose: seq<ComUnknown>, k: nat, ghost w: Ledger) returns (left: seq<ComUnknown>)
    requires w.Conserved() && w.raw == multiset(loose) && k < |loose|
    modifies w`raw, w.objects
    ensures w.Conserved() && w.raw == multiset(left)
  {
    LooseIsAlive(w, loose[k]);
    hide *;
    AddRefRaw(loose[k], w);
    left := loose + [loose[k]];
  }

  method ReleaseLoose(loose: seq<ComUnknown>, k: nat, ghost w: Ledger) returns (left: seq<ComUnknown>)
    requires w.Conserved() && w.raw == multiset(loose) && k < |loose|
    modifies w`raw, w.objects
    ensures w.Conserved() && w.raw == multiset(left)
  {
    LooseIsAlive(w, loose[k]);
    hide *;
    OneLooseLess(loose, k);
    ReleaseRaw(loose[k], w);
    left := loose[..k] + loose[k + 1..];
  }

  lemma OneLooseLess(loose: seq<ComUnknown>, k: nat)
    requires k < |loose|
    ensures loose[k] in multiset(loose) && multiset(loose[..k] + loose[k + 1..]) == multiset(loose) - multiset{loose[k]}
  {
    assert loose == loose[..k] + [loose[k]] + loose[k + 1..];
  }

  method MakeInto(slot: ComPointer, ghost w: Ledger)
    requires w.Conserved() && slot in w.pointers
    modifies w, slot, w.objects
    ensures w.Conserved() && w.raw == old(w.raw) && w.pointers == old(w.pointers)
    ensures w.objects >= old(w.objects) && fresh(w.objects - old(w.objects))
  {
    hide *;
    var made := MakeCom(w);
    slot.AssignMove(made, w);
    made.Destroy(w);
  }

  method DetachFrom(slot: ComPointer, loose: seq<ComUnknown>, ghost w: Ledger) returns (left: seq<ComUnknown>)
    requires w.Conserved() && slot in w.pointers && w.raw == multiset(loose)
    modifies w`raw, slot
    ensures w.Conserved() && w.raw == multiset(left)
  {
    hide *;
    var v := slot.DetachNoRelease(w);
    left := if v != null then loose + [v] else loose;
  }

  /** A reference the pointer does not take over stays loose. */
  method AttachTo(slot: ComPointer, loose: seq<ComUnknown>, k: nat, ghost w: Ledger) returns (left: seq<ComUnknown>)
    requires w.Conserved() && slot in w.pointers && w.raw == multiset(loose) && k < |loose|
    modifies w`raw, w`pointers, slot, w.objects
    ensures w.Conserved() && w.raw == multiset(left) && w.pointers == old(w.pointers)
  {
    hide Ledger.Conserved, Ledger.Values;
    OneLooseLess(loose, k);
    left := if loose[k] != slot.p then loose[..k] + loose[k + 1..] else loose;
    slot.SetNoAddRef(loose[k], w);
  }

  method ShareWith(slot: ComPointer, loose: seq<ComUnknown>, k: nat, ghost w: Ledger)
    requires w.Conserved() && slot in w.pointers && w.raw == multiset(loose) && k < |loose|
    modifies w`pointers, slot, w.objects
    ensures w.Conserved() && w.pointers == old(w.pointers)
  {
    LooseIsAlive(w, loose[k]);
    hide *;
    slot.SetAndAddRef(loose[k], w);
  }

  lemma LooseIsAlive(w: Ledger, o: ComUnknown)
    requires w.Conserved() && o in w.raw
    ensures o in w.objects && o.refCount >= 1
  {
  }

  /** Any program, on any number of pointers: when those that are left have gone out
      of scope and the loose references have been released, every object that was
      ever made has been deleted, and deleted once. */
  method RunToTheEnd(ops: seq<Op>) returns (ghost w: Ledger)
    ensures fresh(w) && w.pointers == {} && w.raw == multiset{}
    ensures forall o :: o in w.objects ==> o.deleted == 1 && o.refCount == 0
  {
    w := new Ledger();
    var slots: seq<ComPointer>, loose: seq<ComUnknown> := [], [];
    assert w.pointers == SlotSet(slots);
    for i := 0 to |ops|
      invariant InScope(w, slots, loose)
      invariant fresh(w) && fresh(w.pointers) && fresh(w.objects)
    {
      hide InScope;
      slots, loose := Perform(ops[i], slots, loose, w);
    }
    Unwind(slots, loose, w);
  }

  predicate Distinct(slots: seq<ComPointer>) {
    forall i, j :: 0 <= i < j < |slots| ==> slots[i] != slots[j]
  }

  ghost function SlotSet(slots: seq<ComPointer>): set<ComPointer> {
    set q | q in slots
  }

  lemma FirstSlot(slots: seq<ComPointer>, i: nat)
    requires i < |slots| && Distinct(slots)
    ensures slots[i] in SlotSet(slots[i..]) && SlotSet(slots[i + 1..]) == SlotSet(slots[i..]) - {slots[i]}
  {
    assert slots[i] in slots[i..] && slots[i..] == [slots[i]] + slots[i + 1..];
    assert slots[i] !in slots[i + 1..];
  }

  lemma FirstLoose(loose: seq<ComUnknown>, i: nat)
    requires i < |loose|
    ensures loose[i] in multiset(loose[i..]) && multiset(loose[i + 1..]) == multiset(loose[i..]) - multiset{loose[i]}
  {
    assert loose[i] in loose[i..] && loose[i..] == [loose[i]] + loose[i + 1..];
  }

  method DestroyAll(slots: seq<ComPointer>, ghost w: Ledger)
    requires w.Conserved() && w.pointers == SlotSet(slots) && Distinct(slots)
    modifies w`pointers, w.objects
    ensures w.Conserved() && w.pointers == {}
  {
    hide *;
    assert slots[0..] == slots;
    for i := 0 to |slots|
      invariant w.Conserved() && w.pointers == SlotSet(slots[i..])
    {
      FirstSlot(slots, i);
      slots[i].Destroy(w);
    }
    NoSlots(slots[|slots|..]);
  }

  lemma NoSlots(slots: seq<ComPointer>)
    requires slots == []
    ensures SlotSet(slots) == {}
  {
  }

  method ReleaseAll(loose: seq<ComUnknown>, ghost w: Ledger)
    requires w.Conserved() && w.raw == multiset(loose)
    modifies w`raw, w.objects
    ensures w.Conserved() && w.raw == multiset{}
  {
    assert loose[0..] == loose;
    for i := 0 to |loose|
      invariant w.Conserved() && w.raw == multiset(loose[i..])
    {
      FirstLoose(loose, i);
      LooseIsAlive(w, loose[i]);
      hide *;
      ReleaseRaw(loose[i], w);
    }
  }

  method Unwind(slots: seq<ComPointer>, loose: seq<ComUnknown>, ghost w: Ledger)
    requires InScope(w, slots, loose)
    modifies w`pointers, w`raw, w.objects
    ensures w.pointers == {} && w.raw == multiset{} && w.objects == old(w.objects)
    ensures forall o :: o in w.objects ==> o.deleted == 1 && o.refCount == 0
  {
    DestroyAll(slots, w);
    ReleaseAll(loose, w);
    NothingIsLeft(w);
  }

  lemma NothingIsLeft(w: Ledger)
    requires w.Conserved() && w.pointers == {} && w.raw == multiset{}
    ensures forall o :: o in w.objects ==> o.deleted == 1 && o.refCount == 0
  {
    forall o | o in w.objects ensures o.refCount == 0 { assert Holders(w.Values(), o) == {}; }
  }
}
