/** The lifecycle word of an asynchronous operation: one 32-bit integer that
    packs a one-hot lifecycle and two sticky flags, the masked swap that is the
    only way to change it, and the atomic object it is meant to behave as. */
module LifecycleWord {

  type Word = bv32

  const CREATED: Word := 0x01
  const STARTED: Word := 0x02
  const COMPLETING: Word := 0x04
  const COMPLETED: Word := 0x08
  const ENDED: Word := 0x10
  const OBSERVED: Word := 0x20
  const CANCEL_REQUESTED: Word := 0x40

  const LIFECYCLE_MASK: Word := CREATED | STARTED | COMPLETING | COMPLETED | ENDED
  const COMPLETED_MASK: Word := COMPLETED | ENDED

  // ---------------------------------------------------------------- the meaning of a word

  datatype Life = Created | Started | Completing | Completed | Ended

  datatype View = View(life: Life, observed: bool, cancelled: bool)

  const FRESH := View(Created, false, false)

  function LifeBit(l: Life): Word {
    match l
    case Created => CREATED
    case Started => STARTED
    case Completing => COMPLETING
    case Completed => COMPLETED
    case Ended => ENDED
  }

  function Bits(v: View): Word {
    LifeBit(v.life) | (if v.observed then OBSERVED else 0) | (if v.cancelled then CANCEL_REQUESTED else 0)
  }

  function Read(w: Word): View {
    View(if w & CREATED != 0 then Created
         else if w & STARTED != 0 then Started
         else if w & COMPLETING != 0 then Completing
         else if w & COMPLETED != 0 then Completed
         else Ended,
         w & OBSERVED != 0,
         w & CANCEL_REQUESTED != 0)
  }

  /** Exactly one lifecycle bit, and nothing beyond the two flags. */
  predicate OneHot(w: Word) {
    Bits(Read(w)) == w
  }

  lemma ReadBits(v: View)
    ensures Read(Bits(v)) == v && OneHot(Bits(v))
  {
  }

  function Stage(l: Life): nat {
    match l
    case Created => 0
    case Started => 1
    case Completing => 2
    case Completed => 3
    case Ended => 4
  }

  function Flags(v: View): nat {
    (if v.observed then 1 else 0) + (if v.cancelled then 1 else 0)
  }

  /** How many of the six possible changes of the word have happened. */
  function Rank(v: View): nat {
    Stage(v.life) + Flags(v)
  }

  /** b may be read after a: the lifecycle does not go back, no flag is lost,
      and the observed flag is frozen once the operation has completed. */
  predicate Precedes(a: View, b: View) {
    && Stage(a.life) <= Stage(b.life)
    && (a.observed ==> b.observed)
    && (a.cancelled ==> b.cancelled)
    && (Stage(a.life) >= 3 ==> a.observed == b.observed)
  }

  /** One change: the lifecycle advances one stage, or one flag appears. */
  predicate Moves(a: View, b: View) {
    || (Stage(b.life) == Stage(a.life) + 1 && b == a.(life := b.life))
    || (!a.cancelled && b == a.(cancelled := true))
    || (!a.observed && a.life in {Started, Completing} && b == a.(observed := true))
  }

  lemma MovesAdvances(a: View, b: View)
    requires Moves(a, b)
    ensures Precedes(a, b) && Rank(b) == Rank(a) + 1
  {
  }

  // ---------------------------------------------------------------- the atomic object

  datatype Call = Start | BeginComplete | Complete | End | Observe | RequestCancel | Peek

  datatype Answer =
    | Swapped(ok: bool)
    | Verdict(completed: bool, synchronous: bool)
    | Peeked(view: View)

  datatype Outcome = Outcome(view: View, answer: Answer)

  /** What one call does if it takes effect at a single instant. */
  function Atomic(c: Call, v: View): Outcome {
    match c
    case Start => Advance(v, Created, Started)
    case BeginComplete => Advance(v, Started, Completing)
    case Complete => Advance(v, Completing, Completed)
    case End => Advance(v, Completed, Ended)
    case Observe =>
      if v.life in {Started, Completing} then Outcome(v.(observed := true), Verdict(false, false))
      else Outcome(v, Verdict(v.life in {Completed, Ended}, !v.observed))
    case RequestCancel => Outcome(v.(cancelled := true), Swapped(!v.cancelled))
    case Peek => Outcome(v, Peeked(v))
  }

  function Advance(v: View, from: Life, to: Life): Outcome {
    if v.life == from then Outcome(v.(life := to), Swapped(true)) else Outcome(v, Swapped(false))
  }

  lemma AtomicMovesOnce(c: Call, v: View)
    ensures Atomic(c, v).view == v || Moves(v, Atomic(c, v).view)
  {
  }

  // ---------------------------------------------------------------- the masked swap

  predicate Matches(w: Word, expected: Word, mask: Word) {
    w & mask == expected
  }

  /** The new word. `desired` is not masked, so bits of it outside the mask are
      added to the word as well; observing relies on that. */
  function Update(desired: Word, check: Word, mask: Word): Word {
    desired | (check & !mask)
  }

  function Desired(c: Call): Word {
    match c
    case Start => STARTED
    case BeginComplete => COMPLETING
    case Complete => COMPLETED
    case End => ENDED
    case Observe => STARTED | OBSERVED
    case RequestCancel => CANCEL_REQUESTED
    case Peek => 0
  }

  /** `second` marks the repeated swap that observing makes while completing. */
  function Expected(c: Call, second: bool): Word {
    match c
    case Start => CREATED
    case BeginComplete => STARTED
    case Complete => COMPLETING
    case End => COMPLETED
    case Observe => if second then COMPLETING else STARTED
    case RequestCancel => 0
    case Peek => 0
  }

  function Mask(c: Call): Word {
    if c == RequestCancel then CANCEL_REQUESTED else LIFECYCLE_MASK
  }

  /** The answer a caller makes of what the swap left in its arguments. */
  function AnswerOf(c: Call, ok: bool, desired: Word): Answer {
    match c
    case Observe => Verdict(desired & COMPLETED_MASK != 0, desired & OBSERVED == 0)
    case Peek => Peeked(Read(desired))
    case _ => Swapped(ok)
  }

  /** A word read by the repeated swap of an observation: completing, with the
      observed flag added, and no cancel flag that the current word lacks. */
  predicate SecondDesired(desired: Word, v: View) {
    && OneHot(desired)
    && Read(desired).life == Completing
    && Read(desired).observed
    && (Read(desired).cancelled ==> v.cancelled)
  }

  lemma SwapTakesEffect(c: Call, second: bool, desired: Word, w: Word)
    requires c != Peek && OneHot(w) && (second ==> c == Observe)
    requires if second then SecondDesired(desired, Read(w)) else desired == Desired(c)
    requires Matches(w, Expected(c, second), Mask(c))
    ensures var o := Atomic(c, Read(w));
            Update(desired, w, Mask(c)) == Bits(o.view) && AnswerOf(c, true, desired) == o.answer
  {
    assert w == Bits(Read(w));
    if second { assert desired == Bits(Read(desired)); }
  }

  lemma FailedSwapReads(c: Call, second: bool, w: Word)
    requires c != Peek && OneHot(w) && (second ==> c == Observe)
    requires !Matches(w, Expected(c, second), Mask(c))
    requires c == Observe && !second ==> w & COMPLETING == 0
    requires second ==> Stage(Read(w).life) >= 2
    ensures var o := Atomic(c, Read(w));
            o.view == Read(w) && AnswerOf(c, false, w) == o.answer
  {
    assert w == Bits(Read(w));
  }

  lemma ReadForSecondSwap(w: Word)
    requires OneHot(w) && w & COMPLETING != 0
    ensures Read(w).life == Completing && SecondDesired(w | OBSERVED, Read(w))
  {
    assert w == Bits(Read(w));
  }

  lemma MatchesMeansSameStage(c: Call, second: bool, w: Word)
    requires c != Peek && OneHot(w)
    ensures c == RequestCancel ==> (Matches(w, Expected(c, second), Mask(c)) <==> !Read(w).cancelled)
    ensures c != RequestCancel ==> (Matches(w, Expected(c, second), Mask(c)) <==> LifeBit(Read(w).life) == Expected(c, second))
  {
    assert w == Bits(Read(w));
  }
}
