/** The state object of an operation, seen by one of its threads: a masked swap
    that retries until it succeeds or its test fails, while other threads go on
    changing the word. */
module OperationState {
  import opened LifecycleWord

  predicate Later(w: Word, w': Word) {
    OneHot(w') && Precedes(Read(w), Read(w'))
  }

  class AsyncOperationState {
    var word: Word

    predicate Valid()
      reads this
    {
      OneHot(word)
    }

    constructor ()
      ensures Valid() && Read(word) == FRESH
    {
      word := CREATED;
    }

    /** Other threads run: the word may become anything their calls can make it. */
    method Interfere()
      requires Valid()
      modifies this
      ensures Valid() && Later(old(word), word)
    {
      var next: Word :| OneHot(next) && Precedes(Read(word), Read(next));
      word := next;
    }

    /** `at` is the word at the instant the call takes effect. The loop ends
        because every genuine failure finds a word of higher rank. */
    method CompareMaskSwap(desired: Word, expected: Word, mask: Word)
      returns (ok: bool, seen: Word, failures: nat, ghost at: Word)
      requires Valid()
      requires forall w: Word :: Later(word, w) && Matches(w, expected, mask) ==> OneHot(Update(desired, w, mask))
      modifies this
      ensures Valid() && Later(old(word), at)
      ensures ok == Matches(at, expected, mask)
      ensures word == if ok then Update(desired, at, mask) else at
      ensures seen == if ok then desired else at
      ensures failures <= 6
    {
      hide Read, Bits, Update, Matches;
      Interfere();
      var check := word;
      failures := 0;
      while true
        invariant Valid() && word == check && Later(old(word), check)
        invariant failures <= Rank(Read(check)) <= 6
        decreases 6 - Rank(Read(check))
      {
        if !Matches(check, expected, mask) {
          at := check;
          return false, check, failures, at;
        }
        var update := Update(desired, check, mask);
        Interfere();
        if word == check {
          at := check;
          word := update;
          return true, desired, failures, at;
        }
        LaterRanksHigher(check, word);
        check, failures := word, failures + 1;
      }
    }

    /** TransitionStarted, TryTransitionCompleting, TransitionCompleted,
        TryTransitionEnded and TryMarkCancelRequested: one swap each. */
    method Transition(c: Call) returns (ok: bool, ghost at: View)
      requires Valid() && c != Observe && c != Peek
      modifies this
      ensures Valid() && Precedes(old(Read(word)), at)
      ensures Outcome(Read(word), Swapped(ok)) == Atomic(c, at)
    {
      TransitionIsLegal(c, word);
      ghost var w;
      var seen, failures;
      ok, seen, failures, w := CompareMaskSwap(Desired(c), Expected(c, false), Mask(c));
      at := Read(w);
      TransitionDecides(c, w);
    }

    /** ObserveState: mark the operation observed if it has not completed, with a
        second swap when the first finds it completing. */
    method ObserveState() returns (desired: Word, ghost at: View)
      requires Valid()
      modifies this
      ensures Valid() && Precedes(old(Read(word)), at)
      ensures Read(word) == Atomic(Observe, at).view
      ensures Verdict(desired & COMPLETED_MASK != 0, desired & OBSERVED == 0) == Atomic(Observe, at).answer
    {
      hide Read, Bits, Update, Matches, OneHot, Atomic;
      ObservingIsLegal(STARTED | OBSERVED, false, word);
      var ok, seen, failures, w := CompareMaskSwap(STARTED | OBSERVED, STARTED, LIFECYCLE_MASK);
      desired, at := seen, Read(w);
      if ok {
        ObservingDecides(STARTED | OBSERVED, false, true, w);
      } else if desired & COMPLETING != 0 {
        ReadForSecondSwap(w);
        desired := desired | OBSERVED;
        ObservingIsLegal(desired, true, word);
        ghost var d := desired;
        ok, seen, failures, w := CompareMaskSwap(desired, COMPLETING, LIFECYCLE_MASK);
        SecondDesiredLater(d, at, Read(w));
        desired, at := seen, Read(w);
        ObservingDecides(d, true, ok, w);
      } else {
        ObservingDecides(STARTED | OBSERVED, false, false, w);
      }
    }
  }

  lemma LaterRanksHigher(a: Word, b: Word)
    requires OneHot(a) && Later(a, b) && a != b
    ensures Rank(Read(a)) < Rank(Read(b)) <= 6
  {
    assert a == Bits(Read(a)) && b == Bits(Read(b));
  }

  lemma TransitionIsLegal(c: Call, w: Word)
    requires OneHot(w) && c != Observe && c != Peek
    ensures forall w': Word :: Later(w, w') && Matches(w', Expected(c, false), Mask(c)) ==>
              OneHot(Update(Desired(c), w', Mask(c)))
  {
    forall w': Word | Later(w, w') && Matches(w', Expected(c, false), Mask(c))
      ensures OneHot(Update(Desired(c), w', Mask(c)))
    {
      SwapTakesEffect(c, false, Desired(c), w');
      ReadBits(Atomic(c, Read(w')).view);
    }
  }

  lemma TransitionDecides(c: Call, w: Word)
    requires OneHot(w) && c != Observe && c != Peek
    ensures Matches(w, Expected(c, false), Mask(c)) ==>
              Outcome(Read(Update(Desired(c), w, Mask(c))), Swapped(true)) == Atomic(c, Read(w))
    ensures !Matches(w, Expected(c, false), Mask(c)) ==>
              Outcome(Read(w), Swapped(false)) == Atomic(c, Read(w))
  {
    hide Read, Bits, OneHot, Update;
    if Matches(w, Expected(c, false), Mask(c)) {
      SwapTakesEffect(c, false, Desired(c), w);
      ReadBits(Atomic(c, Read(w)).view);
    } else {
      FailedSwapReads(c, false, w);
    }
  }

  lemma SecondDesiredLater(desired: Word, v: View, v': View)
    requires SecondDesired(desired, v) && Precedes(v, v')
    ensures SecondDesired(desired, v')
  {
    hide Read, OneHot;
  }

  lemma ObservingIsLegal(desired: Word, second: bool, w: Word)
    requires OneHot(w)
    requires if second then SecondDesired(desired, Read(w)) else desired == STARTED | OBSERVED
    ensures forall w': Word :: Later(w, w') && Matches(w', Expected(Observe, second), LIFECYCLE_MASK) ==>
              OneHot(Update(desired, w', LIFECYCLE_MASK))
  {
    hide Read, Bits, OneHot, Update, Matches;
    forall w': Word | Later(w, w') && Matches(w', Expected(Observe, second), LIFECYCLE_MASK)
      ensures OneHot(Update(desired, w', LIFECYCLE_MASK))
    {
      if second { SecondDesiredLater(desired, Read(w), Read(w')); }
      SwapTakesEffect(Observe, second, desired, w');
      ReadBits(Atomic(Observe, Read(w')).view);
    }
  }

  lemma ObservingDecides(desired: Word, second: bool, ok: bool, w: Word)
    requires OneHot(w) && ok == Matches(w, Expected(Observe, second), LIFECYCLE_MASK)
    requires if second then SecondDesired(desired, Read(w)) && Stage(Read(w).life) >= 2 else desired == STARTED | OBSERVED
    requires ok || second || w & COMPLETING == 0
    ensures var o := Atomic(Observe, Read(w));
            var seen := if ok then desired else w;
            && Read(if ok then Update(desired, w, LIFECYCLE_MASK) else w) == o.view
            && Verdict(seen & COMPLETED_MASK != 0, seen & OBSERVED == 0) == o.answer
  {
    hide Read, Bits, OneHot, Update, Matches;
    if ok {
      SwapTakesEffect(Observe, second, desired, w);
      ReadBits(Atomic(Observe, Read(w)).view);
    } else {
      FailedSwapReads(Observe, second, w);
    }
  }
}
