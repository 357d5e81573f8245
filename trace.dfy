/** Views of a trace of routing effects: how often an effect occurs, and which handlers
    were offered the event, in order. */
module Trace {
  import opened InputTypes

  /** The number of occurrences of `e` in `trace`. */
  function Count(trace: seq<Effect>, e: Effect): (n: nat)
    ensures n <= |trace|
    ensures n == 0 <==> e !in trace
  {
    if trace == [] then 0
    else (if trace[0] == e then 1 else 0) + Count(trace[1..], e)
  }

  /** The handlers consulted in `trace`, in the order they were consulted. */
  function Handlers(trace: seq<Effect>): (hs: seq<Handler>)
    ensures |hs| <= |trace|
  {
    if trace == [] then []
    else (if trace[0].Consult? then [trace[0].handler] else []) + Handlers(trace[1..])
  }

  lemma {:induction false} CountAppend(a: seq<Effect>, b: seq<Effect>, e: Effect)
    ensures Count(a + b, e) == Count(a, e) + Count(b, e)
  {
    if a != [] {
      assert (a + b)[1..] == a[1..] + b;
      CountAppend(a[1..], b, e);
    } else {
      assert a + b == b;
    }
  }

  lemma {:induction false} HandlersAppend(a: seq<Effect>, b: seq<Effect>)
    ensures Handlers(a + b) == Handlers(a) + Handlers(b)
  {
    if a != [] {
      assert (a + b)[1..] == a[1..] + b;
      HandlersAppend(a[1..], b);
    } else {
      assert a + b == b;
    }
  }

  /** A trace without consultations names no handler. */
  lemma {:induction false} NoConsultNoHandlers(trace: seq<Effect>)
    requires forall e :: e in trace ==> !e.Consult?
    ensures Handlers(trace) == []
  {
    if trace != [] {
      assert forall e :: e in trace[1..] ==> e in trace;
      NoConsultNoHandlers(trace[1..]);
    }
  }

  /** The handler named by a single consultation. */
  lemma SingleConsult(h: Handler)
    ensures Handlers([Consult(h)]) == [h]
  {
    assert [Consult(h)][1..] == [];
  }
}
