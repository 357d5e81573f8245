/** The routing's "first consumer wins" rule, stated on its own: offer the event to each
    candidate handler in priority order and stop at the first one that consumes it. */
module PriorityChain {
  import opened InputTypes

  datatype Candidate = Candidate(handler: Handler, consumes: bool)

  datatype Outcome = Outcome(consumed: bool, consulted: seq<Handler>)

  /** Offers the event to each candidate in order and stops at the first that consumes it. */
  function FirstConsumer(chain: seq<Candidate>): (r: Outcome)
  {
    if chain == [] then Outcome(false, [])
    else if chain[0].consumes then Outcome(true, [chain[0].handler])
    else
      var rest := FirstConsumer(chain[1..]);
      Outcome(rest.consumed, [chain[0].handler] + rest.consulted)
  }

  /** The first consumer wins: the handlers consulted are a prefix of the chain, every
      one of them but the last declined, the event is consumed exactly when some
      candidate would consume it, and then by the last handler consulted; if nobody
      consumes it, every candidate was consulted. */
  lemma {:induction false} FirstConsumerWins(chain: seq<Candidate>)
    ensures var r := FirstConsumer(chain);
      |r.consulted| <= |chain| &&
      (forall k :: 0 <= k < |r.consulted| ==> r.consulted[k] == chain[k].handler) &&
      (forall k :: 0 <= k < |r.consulted| - 1 ==> !chain[k].consumes) &&
      (r.consumed <==> exists k :: 0 <= k < |chain| && chain[k].consumes) &&
      (r.consumed ==> 0 < |r.consulted| && chain[|r.consulted| - 1].consumes) &&
      (!r.consumed ==> |r.consulted| == |chain|)
  {
    if chain != [] && !chain[0].consumes {
      FirstConsumerWins(chain[1..]);
      var r, rest := FirstConsumer(chain), FirstConsumer(chain[1..]);
      assert forall k :: 1 <= k < |chain| ==> chain[k] == chain[1..][k - 1];
      assert forall k :: 1 <= k < |r.consulted| ==> r.consulted[k] == rest.consulted[k - 1];
      if rest.consumed {
        var k :| 0 <= k < |chain[1..]| && chain[1..][k].consumes;
        assert chain[k + 1].consumes;
      }
      if r.consumed == false {
        assert forall k :: 0 <= k < |chain| && chain[k].consumes ==> k >= 1 && chain[1..][k - 1].consumes;
      }
    }
  }

  /** When every candidate of `declined` declines, the chain goes on to `rest`, having
      consulted the declined candidates (named `names`) in order. */
  lemma {:induction false} FirstConsumerDeclined(declined: seq<Candidate>, names: seq<Handler>, rest: seq<Candidate>)
    requires |names| == |declined|
    requires forall k :: 0 <= k < |declined| ==> !declined[k].consumes && names[k] == declined[k].handler
    ensures FirstConsumer(declined + rest) ==
            Outcome(FirstConsumer(rest).consumed, names + FirstConsumer(rest).consulted)
  {
    if declined == [] {
      assert declined + rest == rest;
    } else {
      var t := declined + rest;
      assert t[0] == declined[0];
      assert t[1..] == declined[1..] + rest;
      FirstConsumerDeclined(declined[1..], names[1..], rest);
      var tail := FirstConsumer(rest).consulted;
      assert names + tail == [names[0]] + (names[1..] + tail);
    }
  }
}
