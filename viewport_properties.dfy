/** What the viewport client's input routing promises, proved about the specification
    functions that InputKey, InputAxis, RemapControllerInput and
    GetLocalPlayerFromControllerId are verified against. */
module ViewportProperties {
  import opened InputTypes
  import opened Trace
  import opened PriorityChain
  import opened ViewportClient

  // ---------------------------------------------------------------- the handler chain

  /** The console as a candidate, if there is one. */
  function ConsoleCandidate(env: Env): (cs: seq<Candidate>)
  {
    if env.console.Console? then [Candidate(ViewportConsole, env.console.consumes)] else []
  }

  /** The override delegate as a candidate, if it is bound. */
  function OverrideCandidate(o: Override): (cs: seq<Candidate>)
  {
    if o.OverrideBound? then [Candidate(OverrideDelegate, o.consumes)] else []
  }

  /** The player-controller candidate for `id`: present when the lookup finds a local
      player that has a controller. */
  function PlayerCandidate(env: Env, id: int): (cs: seq<Candidate>)
  {
    if env.world.World? then
      match LocalPlayerFor(env, id)
      case Some(k) =>
        if ControllerAt(env, k).Controller? then [Candidate(PlayerController(k), ControllerAt(env, k).consumes)]
        else []
      case None => []
    else []
  }

  /** The handlers that may see an event, in priority order: the console if there is one,
      the override delegate if bound, then the target player's controller, looked up under
      the id the override leaves on the event. */
  function Candidates(env: Env, o: Override, id: int): (cs: seq<Candidate>)
  {
    ConsoleCandidate(env) + OverrideCandidate(o) + PlayerCandidate(env, AfterOverride(o, id))
  }

  /** One step of the chain offers the event to at most one candidate, as `cs` says. */
  predicate StepIs(r: Routing, cs: seq<Candidate>)
  {
    |cs| <= 1 &&
    r.consumed == (cs != [] && cs[0].consumes) &&
    Handlers(r.trace) == (if cs == [] then [] else [cs[0].handler])
  }

  lemma ConsoleStepIsCandidate(env: Env)
    ensures StepIs(ConsoleStep(env), ConsoleCandidate(env))
  {
    if env.console.Console? { SingleConsult(ViewportConsole); }
  }

  lemma OverrideStepIsCandidate(o: Override)
    ensures StepIs(OverrideStep(o), OverrideCandidate(o))
  {
    if o.OverrideBound? { SingleConsult(OverrideDelegate); }
  }

  lemma PlayerStepIsCandidate(env: Env, id: int)
    requires env.world.World?
    ensures StepIs(PlayerStep(env, id), PlayerCandidate(env, id))
  {
    var pl := PlayerStep(env, id);
    var p := PlayerCandidate(env, id);
    NoConsultNoHandlers([Lookup(id)]);
    if p != [] {
      SingleConsult(p[0].handler);
      HandlersAppend([Lookup(id)], [Consult(p[0].handler)]);
    }
  }

  /** The hand-written chain (console, then override, then controller) is the
      first-consumer-wins rule over the candidates. */
  lemma DispatchChainIsFirstConsumer(env: Env, o: Override, id: int)
    requires ChainReachesLookup(env, o) ==> env.world.World?
    ensures DispatchChain(env, o, id).consumed == FirstConsumer(Candidates(env, o, id)).consumed
    ensures Handlers(DispatchChain(env, o, id).trace) == FirstConsumer(Candidates(env, o, id)).consulted
  {
    ConsoleStepIsCandidate(env);
    OverrideStepIsCandidate(o);
    if ConsoleStep(env).consumed {
      ConsoleConsumesFirst(env, o, id);
    } else if OverrideStep(o).consumed {
      OverrideConsumesFirst(env, o, id);
    } else {
      ChainReachesPlayer(env, o, id);
    }
  }

  lemma ConsoleConsumesFirst(env: Env, o: Override, id: int)
    requires ChainReachesLookup(env, o) ==> env.world.World?
    requires ConsoleStep(env).consumed && StepIs(ConsoleStep(env), ConsoleCandidate(env))
    ensures DispatchChain(env, o, id).consumed == FirstConsumer(Candidates(env, o, id)).consumed
    ensures Handlers(DispatchChain(env, o, id).trace) == FirstConsumer(Candidates(env, o, id)).consulted
  {
    var c := ConsoleCandidate(env);
    var cs := Candidates(env, o, id);
    assert cs[0] == c[0];
  }

  lemma OverrideConsumesFirst(env: Env, o: Override, id: int)
    requires ChainReachesLookup(env, o) ==> env.world.World?
    requires !ConsoleStep(env).consumed && StepIs(ConsoleStep(env), ConsoleCandidate(env))
    requires OverrideStep(o).consumed && StepIs(OverrideStep(o), OverrideCandidate(o))
    ensures DispatchChain(env, o, id).consumed == FirstConsumer(Candidates(env, o, id)).consumed
    ensures Handlers(DispatchChain(env, o, id).trace) == FirstConsumer(Candidates(env, o, id)).consulted
  {
    var c, v := ConsoleCandidate(env), OverrideCandidate(o);
    var p := PlayerCandidate(env, AfterOverride(o, id));
    FirstConsumerDeclined(c, Handlers(ConsoleStep(env).trace), v + p);
    assert c + (v + p) == Candidates(env, o, id);
    assert (v + p)[0] == v[0];
    HandlersAppend(ConsoleStep(env).trace, OverrideStep(o).trace);
  }

  lemma ChainReachesPlayer(env: Env, o: Override, id: int)
    requires ChainReachesLookup(env, o) ==> env.world.World?
    requires !ConsoleStep(env).consumed && StepIs(ConsoleStep(env), ConsoleCandidate(env))
    requires !OverrideStep(o).consumed && StepIs(OverrideStep(o), OverrideCandidate(o))
    ensures DispatchChain(env, o, id).consumed == FirstConsumer(Candidates(env, o, id)).consumed
    ensures Handlers(DispatchChain(env, o, id).trace) == FirstConsumer(Candidates(env, o, id)).consulted
  {
    var player := PlayerStep(env, AfterOverride(o, id));
    PlayerStepIsCandidate(env, AfterOverride(o, id));
    StepsAfterDeclines(ConsoleStep(env), ConsoleCandidate(env), OverrideStep(o), OverrideCandidate(o),
                       player, PlayerCandidate(env, AfterOverride(o, id)));
  }

  /** Two steps that decline and a third step: together they are first-consumer-wins
      over their candidates, answered by the third. */
  lemma StepsAfterDeclines(a: Routing, ca: seq<Candidate>, b: Routing, cb: seq<Candidate>,
                           c: Routing, cc: seq<Candidate>)
    requires StepIs(a, ca) && !a.consumed
    requires StepIs(b, cb) && !b.consumed
    requires StepIs(c, cc)
    ensures FirstConsumer(ca + cb + cc) == Outcome(c.consumed, Handlers(a.trace + b.trace + c.trace))
  {
    FirstConsumerOfStep(c, cc);
    DeclinedStep(b, cb, cc);
    DeclinedStep(a, ca, cb + cc);
    AppendAssoc(ca, cb, cc);
    HandlersAppend(a.trace, b.trace);
    HandlersAppend(a.trace + b.trace, c.trace);
    AppendAssoc(Handlers(a.trace), Handlers(b.trace), Handlers(c.trace));
  }

  /** A step that declines hands the event on to the rest of the chain. */
  lemma DeclinedStep(r: Routing, cs: seq<Candidate>, rest: seq<Candidate>)
    requires StepIs(r, cs) && !r.consumed
    ensures FirstConsumer(cs + rest) ==
            Outcome(FirstConsumer(rest).consumed, Handlers(r.trace) + FirstConsumer(rest).consulted)
  {
    FirstConsumerDeclined(cs, Handlers(r.trace), rest);
  }

  /** A single step is first-consumer-wins over its own candidates. */
  lemma FirstConsumerOfStep(r: Routing, cs: seq<Candidate>)
    requires StepIs(r, cs)
    ensures FirstConsumer(cs) == Outcome(r.consumed, Handlers(r.trace))
  {
    if cs != [] {
      assert cs[1..] == [];
    }
  }

  // ---------------------------------------------------------------- InputKey

  /** A key that toggles fullscreen is consumed at once: no latency marker, no remap,
      no broadcast, no handler. */
  lemma FullscreenToggleShortCircuits(env: Env, id: int, key: Key, event: InputEvent)
    requires KeyCallable(env) && env.togglesFullscreen
    ensures KeyRouting(env, id, key, event) == Routing(true, [])
  {
  }

  /** Every effect of the dispatch chain is a handler consultation or the lookup, and
      the lookup uses the id the override leaves on the event. */
  lemma DispatchChainEffects(env: Env, o: Override, id: int)
    requires ChainReachesLookup(env, o) ==> env.world.World?
    ensures forall e :: e in DispatchChain(env, o, id).trace ==>
              e.Consult? || e == Lookup(AfterOverride(o, id))
  {
  }

  /** After the remap a key event leaves only the broadcast, handler consultations and
      the lookup, which uses the remapped id or the id an override wrote over it. */
  lemma KeyDispatchEffects(env: Env, id: int, key: Key)
    requires KeyCallable(env) && !env.togglesFullscreen
    ensures forall e :: e in KeyDispatch(env, id, key).trace ==>
              e.Consult? || e == Broadcast || e == Lookup(AfterOverride(env.keyOverride, id))
  {
    if !env.ignoreInput && !HookConsumes(env) {
      DispatchChainEffects(env, env.keyOverride, id);
    }
  }

  /** A left mouse button press sets the latency marker exactly once, first, whatever
      the dispatch decides afterwards; any other key never sets it. */
  lemma LatencyMarkerOnce(env: Env, id: int, key: Key, event: InputEvent)
    requires KeyCallable(env) && !env.togglesFullscreen
    ensures var r := KeyRouting(env, id, key, event);
      Count(r.trace, LatencyMarker) == (if key == LeftMouseButton && event == Pressed then 1 else 0) &&
      (key == LeftMouseButton && event == Pressed ==> r.trace[0] == LatencyMarker)
  {
    var after := KeyDispatch(env, RemappedId(env, id, key), key);
    var m := if key == LeftMouseButton && event == Pressed then [LatencyMarker] else [];
    var p := if AsksPieRemap(env, key) then [PieRemap] else [];
    KeyTraceSplit(env, id, key, event);
    KeyDispatchEffects(env, RemappedId(env, id, key), key);
    MarkerFirstAndOnce(m, [Remap] + p + after.trace);
    AppendAssoc(m, [Remap] + p, after.trace);
    AppendAssoc(m, [Remap], p);
  }

  /** A trace made of an optional latency marker followed by other effects holds the
      marker as often as the optional part does, and then first. */
  lemma MarkerFirstAndOnce(m: seq<Effect>, rest: seq<Effect>)
    requires m == [] || m == [LatencyMarker]
    requires LatencyMarker !in rest
    ensures Count(m + rest, LatencyMarker) == |m|
    ensures m != [] ==> (m + rest)[0] == LatencyMarker
  {
    CountAppend(m, rest, LatencyMarker);
    if m != [] {
      assert m[1..] == [];
    }
  }

  /** The trace of a key event that is not a fullscreen toggle: the optional latency
      marker, the remap rule's effects, then the dispatch. */
  lemma KeyTraceSplit(env: Env, id: int, key: Key, event: InputEvent)
    requires KeyCallable(env) && !env.togglesFullscreen
    ensures KeyRouting(env, id, key, event).trace ==
      (if key == LeftMouseButton && event == Pressed then [LatencyMarker] else []) + [Remap] +
      (if AsksPieRemap(env, key) then [PieRemap] else []) +
      KeyDispatch(env, RemappedId(env, id, key), key).trace
  {
  }

  /** The remap rule runs exactly once per key event that is not a fullscreen toggle,
      asks the play-in-editor remap at most once, and comes before every handler and the
      lookup, which uses the remapped id (or the id an override wrote over it). */
  lemma KeyRemapOnceBeforeLookup(env: Env, id: int, key: Key, event: InputEvent)
    requires KeyCallable(env) && !env.togglesFullscreen
    ensures var r := KeyRouting(env, id, key, event);
      Count(r.trace, Remap) == 1 &&
      Count(r.trace, PieRemap) == (if AsksPieRemap(env, key) then 1 else 0) &&
      (forall j :: 0 <= j < |r.trace| && (r.trace[j].Consult? || r.trace[j].Lookup?) ==>
        Remap in r.trace[..j]) &&
      forall j :: 0 <= j < |r.trace| && r.trace[j].Lookup? ==>
        r.trace[j].controllerId == AfterOverride(env.keyOverride, RemappedId(env, id, key))
  {
    var after := KeyDispatch(env, RemappedId(env, id, key), key);
    var m := if key == LeftMouseButton && event == Pressed then [LatencyMarker] else [];
    var p := if AsksPieRemap(env, key) then [PieRemap] else [];
    KeyTraceSplit(env, id, key, event);
    KeyDispatchEffects(env, RemappedId(env, id, key), key);
    RemapOnceBeforeLookup(m, p, after.trace, AfterOverride(env.keyOverride, RemappedId(env, id, key)));
  }

  /** A trace made of an optional latency marker, the remap, an optional play-in-editor
      remap and then effects of neither kind counts one remap and at most one
      play-in-editor remap, and every consultation and lookup in it comes after the
      remap. */
  lemma RemapOnceBeforeLookup(m: seq<Effect>, p: seq<Effect>, rest: seq<Effect>, id: int)
    requires m == [] || m == [LatencyMarker]
    requires p == [] || p == [PieRemap]
    requires forall e :: e in rest ==> e.Consult? || e == Broadcast || e == Lookup(id)
    ensures var t := m + [Remap] + p + rest;
      Count(t, Remap) == 1 && Count(t, PieRemap) == |p| &&
      (forall j :: 0 <= j < |t| && (t[j].Consult? || t[j].Lookup?) ==> Remap in t[..j]) &&
      forall j :: 0 <= j < |t| && t[j].Lookup? ==> t[j].controllerId == id
  {
    var pre := m + [Remap] + p;
    var t := pre + rest;
    CountAppend(pre, rest, Remap);
    CountAppend(m + [Remap], p, Remap);
    CountAppend(m, [Remap], Remap);
    CountAppend(pre, rest, PieRemap);
    CountAppend(m + [Remap], p, PieRemap);
    CountAppend(m, [Remap], PieRemap);
    assert [Remap][1..] == [];
    if m != [] { assert m[1..] == []; }
    if p != [] { assert p[1..] == []; }
    forall j | 0 <= j < |t| && (t[j].Consult? || t[j].Lookup?)
      ensures Remap in t[..j]
    {
      assert t[..j][|m|] == Remap;
    }
    forall j | 0 <= j < |t| && t[j].Lookup?
      ensures t[j].controllerId == id
    {
      assert t[j] == rest[j - |pre|] && rest[j - |pre|] in rest;
    }
  }

  /** While input is ignored, a key goes only to the console: its answer is the result
      (false without a console), nothing is broadcast, and neither the override nor any
      player controller is consulted. */
  lemma IgnoredKeyReachesOnlyConsole(env: Env, id: int, key: Key, event: InputEvent)
    requires KeyCallable(env) && !env.togglesFullscreen && env.ignoreInput
    ensures var r := KeyRouting(env, id, key, event);
      r.consumed == (env.console.Console? && env.console.consumes) &&
      Broadcast !in r.trace &&
      Handlers(r.trace) == (if env.console.Console? then [ViewportConsole] else [])
  {
    var pre := KeyPrefix(env, key, event);
    var console := ConsoleStep(env);
    NoConsultNoHandlers(pre);
    HandlersAppend(pre, console.trace);
    if env.console.Console? {
      SingleConsult(ViewportConsole);
    }
  }

  /** The key dispatch after the remap, for a key the debugger hook does not consume:
      first-consumer-wins plus the mouse-button rule, after the hook if it is bound. */
  lemma KeyDispatchPriority(env: Env, id: int, key: Key)
    requires KeyCallable(env) && !env.togglesFullscreen && !env.ignoreInput && !HookConsumes(env)
    ensures var r := KeyDispatch(env, id, key);
      var chain := FirstConsumer(Candidates(env, env.keyOverride, id));
      r.consumed == (chain.consumed || key.IsMouseButton()) &&
      Handlers(r.trace) ==
        (if env.withEditor && env.debuggerHook.HookBound? then [Debugger] else []) + chain.consulted
  {
    var d := DispatchChain(env, env.keyOverride, id);
    var hook := HookTrace(env);
    DispatchChainIsFirstConsumer(env, env.keyOverride, id);
    NoConsultNoHandlers([Broadcast]);
    if hook != [] {
      SingleConsult(Debugger);
    }
    HandlersAppend([Broadcast], hook);
    var hookHandlers := if env.withEditor && env.debuggerHook.HookBound? then [Debugger] else [];
    assert Handlers([Broadcast] + hook) == [] + hookHandlers == hookHandlers;
    HandlersAppend([Broadcast] + hook, d.trace);
  }

  /** With input not ignored and the debugger hook not consuming the key, the result is
      first-consumer-wins over console, override and the target player's controller,
      with a mouse button counted as consumed; the handlers are consulted in that order
      (after the debugger hook, when it is bound), none after the one that consumed. */
  lemma KeyPriority(env: Env, id: int, key: Key, event: InputEvent)
    requires KeyCallable(env) && !env.togglesFullscreen && !env.ignoreInput && !HookConsumes(env)
    ensures var r := KeyRouting(env, id, key, event);
      var chain := FirstConsumer(Candidates(env, env.keyOverride, RemappedId(env, id, key)));
      r.consumed == (chain.consumed || key.IsMouseButton()) &&
      Handlers(r.trace) ==
        (if env.withEditor && env.debuggerHook.HookBound? then [Debugger] else []) + chain.consulted
  {
    var rid := RemappedId(env, id, key);
    var after := KeyDispatch(env, rid, key);
    var pre := KeyPrefix(env, key, event);
    KeyDispatchPriority(env, rid, key);
    NoConsultNoHandlers(pre);
    HandlersAppend(pre, after.trace);
  }

  /** A key the editor's debugger hook consumes ends there: it is reported consumed, the
      hook is the only handler consulted, and no local player is looked up. */
  lemma HookConsumesStops(env: Env, id: int, key: Key, event: InputEvent)
    requires KeyCallable(env) && !env.togglesFullscreen && !env.ignoreInput && HookConsumes(env)
    ensures var r := KeyRouting(env, id, key, event);
      r.consumed && Handlers(r.trace) == [Debugger] && forall e :: e in r.trace ==> !e.Lookup?
  {
    var pre := KeyPrefix(env, key, event);
    assert KeyRouting(env, id, key, event) == Routing(true, pre + [Broadcast, Consult(Debugger)]);
    HookEndsTrace(pre);
  }

  /** Effects that are neither consultations nor lookups, then the broadcast and the
      debugger hook: the hook is the only handler, and there is no lookup. */
  lemma HookEndsTrace(pre: seq<Effect>)
    requires forall e :: e in pre ==> !e.Consult? && !e.Lookup?
    ensures Handlers(pre + [Broadcast, Consult(Debugger)]) == [Debugger]
    ensures forall e :: e in pre + [Broadcast, Consult(Debugger)] ==> !e.Lookup?
  {
    NoConsultNoHandlers(pre);
    NoConsultNoHandlers([Broadcast]);
    SingleConsult(Debugger);
    assert [Broadcast, Consult(Debugger)] == [Broadcast] + [Consult(Debugger)];
    HandlersAppend([Broadcast], [Consult(Debugger)]);
    HandlersAppend(pre, [Broadcast, Consult(Debugger)]);
  }

  /** A mouse button is always reported consumed once the key passes the ignore-input
      check, whoever (if anyone) took it. */
  lemma MouseButtonAlwaysConsumed(env: Env, id: int, key: Key, event: InputEvent)
    requires KeyCallable(env) && !env.ignoreInput && key.IsMouseButton()
    ensures KeyRouting(env, id, key, event).consumed
  {
  }

  // ---------------------------------------------------------------- InputAxis

  /** While input is ignored, an axis event is dropped: not consumed, not remapped,
      not broadcast, no handler consulted. */
  lemma IgnoredAxisIsDropped(env: Env, id: int, key: Key)
    requires AxisCallable(env) && env.ignoreInput
    ensures AxisRouting(env, id, key) == Routing(false, [])
  {
  }

  /** In a Slate play-in-editor viewport with the console open, an axis event is
      remapped and broadcast but offered to no handler, and reported not consumed. */
  lemma HeldBackAxisReachesNoHandler(env: Env, id: int, key: Key)
    requires AxisCallable(env) && !env.ignoreInput && AxisHeldBack(env)
    ensures var r := AxisRouting(env, id, key);
      !r.consumed && Broadcast in r.trace && Handlers(r.trace) == []
  {
    var r := AxisRouting(env, id, key);
    assert r.trace == RemapEffects(env, key) + [Broadcast];
    NoConsultNoHandlers(r.trace);
  }

  /** In a Slate play-in-editor viewport without an open console, every axis event is
      reported consumed, whatever the handlers answered. */
  lemma SlatePieAbsorbsAxis(env: Env, id: int, key: Key)
    requires AxisCallable(env) && !env.ignoreInput && SlatePie(env) && !AxisHeldBack(env)
    ensures AxisRouting(env, id, key).consumed
  {
  }

  /** An axis event that is not held back is offered by first-consumer-wins to console,
      override and the target player's controller, in that order; its result is that
      chain's answer (no mouse-button rule), or true in a Slate play-in-editor viewport. */
  lemma AxisPriority(env: Env, id: int, key: Key)
    requires AxisCallable(env) && !env.ignoreInput && !AxisHeldBack(env)
    ensures var r := AxisRouting(env, id, key);
      var chain := FirstConsumer(Candidates(env, env.axisOverride, RemappedId(env, id, key)));
      r.consumed == (chain.consumed || SlatePie(env)) && Handlers(r.trace) == chain.consulted
  {
    var r := AxisRouting(env, id, key);
    var rid := RemappedId(env, id, key);
    var d := DispatchChain(env, env.axisOverride, rid);
    var pre := RemapEffects(env, key) + [Broadcast];
    DispatchChainIsFirstConsumer(env, env.axisOverride, rid);
    assert r.trace == pre + d.trace;
    NoConsultNoHandlers(pre);
    HandlersAppend(pre, d.trace);
  }

  /** The remap rule runs exactly once per axis event that is not ignored, before every
      handler and the lookup, which uses the remapped id (or the id an override wrote
      over it). */
  lemma AxisRemapOnceBeforeLookup(env: Env, id: int, key: Key)
    requires AxisCallable(env) && !env.ignoreInput
    ensures var r := AxisRouting(env, id, key);
      Count(r.trace, Remap) == 1 &&
      Count(r.trace, PieRemap) == (if AsksPieRemap(env, key) then 1 else 0) &&
      (forall j :: 0 <= j < |r.trace| && (r.trace[j].Consult? || r.trace[j].Lookup?) ==>
        Remap in r.trace[..j]) &&
      forall j :: 0 <= j < |r.trace| && r.trace[j].Lookup? ==>
        r.trace[j].controllerId == AfterOverride(env.axisOverride, RemappedId(env, id, key))
  {
    var rid := RemappedId(env, id, key);
    var after := AxisDispatch(env, rid);
    var p := if AsksPieRemap(env, key) then [PieRemap] else [];
    assert [] + [Remap] == [Remap];
    if !AxisHeldBack(env) {
      DispatchChainEffects(env, env.axisOverride, rid);
    }
    RemapOnceBeforeLookup([], p, after.trace, AfterOverride(env.axisOverride, rid));
  }

  // ---------------------------------------------------------------- remap rule

  /** With several local players, a gamepad key and the offset setting on, the id goes
      up by exactly one and the play-in-editor remap is not asked, in PIE or not. */
  lemma OffsetRuleIncrements(env: Env, id: int, key: Key)
    requires GameInstanceReachable(env)
    requires NumLocalPlayers(env) > 1 && key.IsGamepadKey() && env.offsetPlayerGamepadIds
    ensures RemappedId(env, id, key) == id + 1
    ensures RemapEffects(env, key) == [Remap]
  {
  }

  /** Without a world there are no local players, so the offset rule never fires. */
  lemma NoWorldNoOffset(env: Env, id: int, key: Key)
    requires env.world.NoWorld?
    ensures RemappedId(env, id, key) ==
            (if env.isPlayInEditor && key.IsGamepadKey() then env.pieRemap(id) else id)
  {
  }

  /** A key that is not a gamepad key keeps its controller id, and the play-in-editor
      remap is not asked. */
  lemma NonGamepadKeyKeepsId(env: Env, id: int, key: Key)
    requires GameInstanceReachable(env) && !key.IsGamepadKey()
    ensures RemappedId(env, id, key) == id
    ensures RemapEffects(env, key) == [Remap]
  {
  }

  /** With at most one local player the offset setting makes no difference: outside
      play-in-editor the id is kept; in play-in-editor a gamepad key goes to the
      engine's remap. */
  lemma SingleLocalPlayerIgnoresOffset(env: Env, id: int, key: Key, offset: bool)
    requires GameInstanceReachable(env) && NumLocalPlayers(env) <= 1
    ensures RemappedId(env.(offsetPlayerGamepadIds := offset), id, key) ==
            (if env.isPlayInEditor && key.IsGamepadKey() then env.pieRemap(id) else id)
  {
  }

  /** Unless the play-in-editor remap is asked, the id goes up by one exactly when the
      offset rule fires, and is otherwise kept. */
  lemma IncrementIffOffsetRule(env: Env, id: int, key: Key)
    requires GameInstanceReachable(env) && !AsksPieRemap(env, key)
    ensures RemappedId(env, id, key) == id + 1 <==> OffsetApplies(env, key)
    ensures !OffsetApplies(env, key) ==> RemappedId(env, id, key) == id
  {
  }

  // ---------------------------------------------------------------- scenarios

  /** Two local players, offset on, a gamepad key on controller 0: the event is routed
      as controller 1; with no console, no override and no player on id 1, nobody
      consumes it (a gamepad key is not a mouse button). */
  lemma TwoPlayerGamepadScenario(env: Env, slots: seq<Slot>, event: InputEvent)
    requires env.world == World(Some(slots)) && |slots| == 2
    requires env.offsetPlayerGamepadIds && !env.togglesFullscreen && !env.ignoreInput && !HookConsumes(env)
    requires env.console.NoConsole? && env.keyOverride.OverrideUnbound?
    requires forall j :: 0 <= j < |slots| ==> !IsPlayerFor(slots[j], 1)
    ensures RemappedId(env, 0, GamepadKey) == 1
    ensures var r := KeyRouting(env, 0, GamepadKey, event);
      !r.consumed && Lookup(1) in r.trace
  {
    var r := KeyRouting(env, 0, GamepadKey, event);
    assert LocalPlayerFor(env, 1).None?;
    assert DispatchChain(env, env.keyOverride, 1) == Routing(false, [Lookup(1)]);
    assert r.trace[|r.trace| - 1] == Lookup(1);
  }

  /** One local player on controller 0 with a controller, a keyboard key, no console and
      no override: the event reaches that controller, and its answer is the result. */
  lemma SinglePlayerKeyboardScenario(env: Env, answer: bool, event: InputEvent)
    requires env.world == World(Some([LocalPlayer(0, Controller(answer))]))
    requires !env.togglesFullscreen && !env.ignoreInput && !HookConsumes(env)
    requires env.console.NoConsole? && env.keyOverride.OverrideUnbound?
    ensures var r := KeyRouting(env, 0, OtherKey, event);
      r.consumed == answer && Consult(PlayerController(0)) in r.trace
  {
    var r := KeyRouting(env, 0, OtherKey, event);
    assert LocalPlayerFor(env, 0) == Some(0);
    var d := DispatchChain(env, env.keyOverride, 0);
    assert d == Routing(answer, [Lookup(0), Consult(PlayerController(0))]);
    assert r.trace[|r.trace| - 1] == Consult(PlayerController(0));
  }
}
