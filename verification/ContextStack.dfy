/** Operation contexts: the list an operation carries for its wrapped callbacks.
    Each OperationContextCallback pushes its own context and then calls what it
    wraps; whoever ends the operation pops in the opposite order, by type. */
module ContextStack {
  import opened Sequences

  /** `kind` stands for the type parameter of OperationContext. */
  class Context {
    const kind: nat
    var next: Context?

    constructor (kind: nat)
      ensures this.kind == kind && next == null
    {
      this.kind, next := kind, null;
    }
  }

  /** The list that starts at c runs through exactly these contexts. */
  ghost predicate Linked(c: Context?, stack: seq<Context>)
    reads stack
  {
    if stack == [] then c == null else c == stack[0] && Linked(stack[0].next, stack[1..])
  }

  class AsyncOperation {
    var contexts: Context?
    ghost var stack: seq<Context>

    ghost predicate Valid()
      reads this, stack
    {
      Linked(contexts, stack) && forall i, j :: 0 <= i < j < |stack| ==> stack[i] != stack[j]
    }

    constructor ()
      ensures Valid() && stack == []
    {
      contexts, stack := null, [];
    }

    method PushOperationContext(context: Context)
      requires Valid() && context !in stack
      modifies this, context
      ensures Valid() && stack == [context] + old(stack)
    {
      context.next := contexts;
      contexts := context;
      stack := [context] + stack;
    }

    /** The context on top has the type the caller asks for; an empty list gives null. */
    method PopOperationContext(kind: nat) returns (result: Context?)
      requires Valid() && (stack != [] ==> stack[0].kind == kind)
      modifies this, stack
      ensures Valid()
      ensures if old(stack) == [] then result == null && stack == [] else result == old(stack[0]) && stack == old(stack[1..])
      ensures result != null ==> result.kind == kind && result.next == null
    {
      result := contexts;
      contexts := null;
      if result != null {
        contexts := result.next;
        result.next := null;
        stack := stack[1..];
      }
    }

    /** The typed End asserts that no context was left behind. */
    method End()
      requires Valid() && stack == []
    {
      assert contexts == null;
    }
  }

  lemma RestUnstacked(rest: seq<OperationContextCallback>, cs: seq<Context>, op: AsyncOperation)
    requires Armed(rest) && Contexts(rest) == cs && forall i :: 0 <= i < |cs| ==> cs[i] !in op.stack
    ensures forall i :: 0 <= i < |rest| ==> rest[i].context !in op.stack
  {
  }

  lemma ReversedSplits(cs: seq<Context>, below: seq<Context>)
    requires cs != []
    ensures Reversed(cs[1..]) + ([cs[0]] + below) == Reversed(cs) + below
  {
  }

  class OperationContextCallback {
    const kind: nat
    const inner: OperationContextCallback?
    var context: Context?

    constructor (context: Context, inner: OperationContextCallback?)
      ensures this.context == context && this.kind == context.kind && this.inner == inner
    {
      this.context, this.kind, this.inner := context, context.kind, inner;
    }

    /** The context is taken, so a second firing would have nothing to push. */
    method TakeUPtr() returns (taken: Context?)
      modifies this
      ensures taken == old(context) && context == null
    {
      taken := context;
      context := null;
    }

    method Invoke(op: AsyncOperation, ghost layers: seq<OperationContextCallback>)
      requires Nested(this, layers) && Armed(layers) && op.Valid()
      requires forall i :: 0 <= i < |layers| ==> layers[i].context !in op.stack
      modifies layers, op, Contexts(layers)
      ensures op.Valid() && op.stack == Reversed(old(Contexts(layers))) + old(op.stack)
      ensures Spent(layers)
      decreases |layers|, 1
    {
      ghost var mine, below := Contexts(layers), op.stack;
      PushOwn(op, layers);
      InvokeInner(op, layers, mine, below);
    }

    /** The wrapped callback, after the own context has been pushed. */
    method InvokeInner(op: AsyncOperation, ghost layers: seq<OperationContextCallback>, ghost mine: seq<Context>, ghost below: seq<Context>)
      requires Nested(this, layers) && context == null && Armed(layers[1..]) && op.Valid()
      requires mine != [] && Contexts(layers[1..]) == mine[1..] && op.stack == [mine[0]] + below
      requires forall i :: 1 <= i < |mine| ==> mine[i] !in op.stack
      modifies layers[1..], op, mine[1..]
      ensures op.Valid() && op.stack == Reversed(mine) + below && Spent(layers)
      decreases |layers|, 0
    {
      if inner != null {
        RestUnstacked(layers[1..], mine[1..], op);
        hide Linked, Armed, Reversed;
        inner.Invoke(op, layers[1..]);
        ReversedSplits(mine, below);
        assert layers == [this] + layers[1..];
      } else {
        assert layers == [this] && mine == [mine[0]];
      }
    }

    method PushOwn(op: AsyncOperation, ghost layers: seq<OperationContextCallback>)
      requires layers != [] && layers[0] == this && this !in layers[1..] && Armed(layers)
      requires op.Valid() && context !in op.stack
      modifies this, op, context
      ensures op.Valid() && op.stack == [old(context)] + old(op.stack) && context == null
      ensures Armed(layers[1..]) && Contexts(layers[1..]) == old(Contexts(layers))[1..]
      ensures forall i :: 1 <= i < |layers| ==> old(Contexts(layers))[i] != old(context)
    {
      var taken := TakeUPtr();
      assert layers == [this] + layers[1..];
      op.PushOperationContext(taken);
    }
  }

  /** layers[0] is the wrapper handed to the operation; each wraps the next. */
  ghost predicate Nested(w: OperationContextCallback, layers: seq<OperationContextCallback>)
    decreases |layers|
  {
    && layers != [] && layers[0] == w && w !in layers[1..]
    && (if w.inner == null then layers == [w] else Nested(w.inner, layers[1..]))
  }

  /** Every wrapper still has its own context. */
  ghost predicate Armed(layers: seq<OperationContextCallback>)
    reads layers
  {
    && (forall i :: 0 <= i < |layers| ==> layers[i].context != null && layers[i].context.kind == layers[i].kind)
    && (forall i, j :: 0 <= i < j < |layers| ==> layers[i].context != layers[j].context)
  }

  ghost predicate Spent(layers: seq<OperationContextCallback>)
    reads layers
  {
    forall i :: 0 <= i < |layers| ==> layers[i].context == null
  }

  ghost function Contexts(layers: seq<OperationContextCallback>): (cs: seq<Context>)
    requires Armed(layers)
    reads layers
    ensures |cs| == |layers| && forall i :: 0 <= i < |cs| ==> cs[i] == layers[i].context
  {
    seq(|layers|, i requires 0 <= i < |layers| reads layers requires layers[i].context != null => layers[i].context)
  }

  /** Popping by type, innermost wrapper first, gives each wrapper its own context. */
  method Unwind(op: AsyncOperation, layers: seq<OperationContextCallback>, ghost own: seq<Context>) returns (popped: seq<Context>)
    requires op.Valid() && |own| == |layers| && op.stack == Reversed(own)
    requires forall i :: 0 <= i < |layers| ==> own[i].kind == layers[i].kind
    modifies op, own
    ensures op.Valid() && op.stack == [] && popped == own
  {
    popped := [];
    hide Linked;
    for i := |layers| downto 0
      invariant op.Valid() && op.stack == Reversed(own)[|layers| - i..]
      invariant popped == own[i..]
    {
      ghost var left := Reversed(own)[|layers| - i - 1..];
      assert op.stack == left && left[0] == own[i] && left[1..] == Reversed(own)[|layers| - i..];
      hide Linked, Reversed;
      var c := op.PopOperationContext(layers[i].kind);
      popped := [c] + popped;
      assert own[i..] == [own[i]] + own[i + 1..];
    }
  }

  /** One firing of any number of nested wrappers, then as many pops: every layer
      gets back its own context, nothing is left for End to complain about, and
      there is nothing left to push a second time. */
  method FireAndUnwind(op: AsyncOperation, layers: seq<OperationContextCallback>) returns (popped: seq<Context>)
    requires op.Valid() && op.stack == [] && layers != [] && Nested(layers[0], layers) && Armed(layers)
    modifies layers, op, Contexts(layers)
    ensures op.Valid() && op.contexts == null && popped == old(Contexts(layers)) && Spent(layers)
  {
    ghost var own := Contexts(layers);
    layers[0].Invoke(op, layers);
    popped := Unwind(op, layers, own);
    op.End();
  }
}
