/** The input routing of UTikiTandemsViewportClient: the controller-id remap rule, the
    local-player lookup, and the key and axis dispatch chains. Each method is proved
    against a specification function of the same name family; the properties of those
    functions are proved in module ViewportProperties. */
module ViewportClient {
  import opened InputTypes

  datatype Routing = Routing(consumed: bool, trace: seq<Effect>)

  // ---------------------------------------------------------------- remap rule

  /** The remap rule dereferences the game instance of a world that is present. */
  predicate GameInstanceReachable(env: Env)
  {
    env.world.World? ==> env.world.gameInstance.Some?
  }

  /** The number of local players: zero without a world, else the length of the
      game instance's local-player array (null entries included). */
  function NumLocalPlayers(env: Env): (n: nat)
    requires GameInstanceReachable(env)
  {
    if env.world.World? then |env.world.gameInstance.value| else 0
  }

  /** The first rule of the remap table: several local players, a gamepad key, and the
      offset setting on. */
  predicate OffsetApplies(env: Env, key: Key)
    requires GameInstanceReachable(env)
  {
    NumLocalPlayers(env) > 1 && key.IsGamepadKey() && env.offsetPlayerGamepadIds
  }

  /** The second rule: the first did not fire, the viewport is play-in-editor and the
      key is a gamepad key; the engine's play-in-editor remap is asked. */
  predicate AsksPieRemap(env: Env, key: Key)
    requires GameInstanceReachable(env)
  {
    !OffsetApplies(env, key) && env.isPlayInEditor && key.IsGamepadKey()
  }

  /** The controller id an event carries after the remap rule. */
  function RemappedId(env: Env, id: int, key: Key): (r: int)
    requires GameInstanceReachable(env)
  {
    if OffsetApplies(env, key) then id + 1
    else if AsksPieRemap(env, key) then env.pieRemap(id)
    else id
  }

  /** The effects of one run of the remap rule. */
  function RemapEffects(env: Env, key: Key): (effects: seq<Effect>)
    requires GameInstanceReachable(env)
  {
    [Remap] + (if AsksPieRemap(env, key) then [PieRemap] else [])
  }

  method RemapControllerInput(env: Env, args: KeyEventArgs) returns (effects: seq<Effect>)
    requires GameInstanceReachable(env)
    modifies args
    ensures args.controllerId == RemappedId(env, old(args.controllerId), args.key)
    ensures args.key == old(args.key) && args.event == old(args.event)
    ensures effects == RemapEffects(env, args.key)
  {
    effects := [Remap];
    var numLocalPlayers := if env.world.World? then |env.world.gameInstance.value| else 0;
    if numLocalPlayers > 1 && args.key.IsGamepadKey() && env.offsetPlayerGamepadIds {
      args.controllerId := args.controllerId + 1;
    } else if env.isPlayInEditor && args.key.IsGamepadKey() {
      args.controllerId := env.pieRemap(args.controllerId);
      effects := effects + [PieRemap];
    }
  }

  // ---------------------------------------------------------------- player lookup

  /** A non-null local player whose controller id is `id`. */
  predicate IsPlayerFor(slot: Slot, id: int)
  {
    slot.LocalPlayer? && slot.controllerId == id
  }

  /** `k` is the first index of `slots` holding a local player with controller id `id`. */
  predicate IsFirstPlayerFor(slots: seq<Slot>, id: int, k: nat)
  {
    k < |slots| && IsPlayerFor(slots[k], id) &&
    forall j :: 0 <= j < k ==> !IsPlayerFor(slots[j], id)
  }

  /** The index of the first local player in `slots` with controller id `id`, if any.
      The first match is unique, so the lookup's result is determined by the slots. */
  function FirstPlayerFor(slots: seq<Slot>, id: int): (r: Option<nat>)
    ensures r.Some? ==> IsFirstPlayerFor(slots, id, r.value)
    ensures r.None? ==> forall j :: 0 <= j < |slots| ==> !IsPlayerFor(slots[j], id)
  {
    if slots == [] then None
    else if IsPlayerFor(slots[0], id) then Some(0)
    else
      match FirstPlayerFor(slots[1..], id)
      case None => None
      case Some(k) => Some(k + 1)
  }

  /** The local player the viewport resolves for `id`: none without a game instance,
      else the first match in collection order. The world itself is dereferenced. */
  function LocalPlayerFor(env: Env, id: int): (r: Option<nat>)
    requires env.world.World?
    ensures r.Some? ==> env.world.gameInstance.Some? &&
                        IsFirstPlayerFor(env.world.gameInstance.value, id, r.value)
    ensures r.None? ==> env.world.gameInstance.None? ||
                        forall j :: 0 <= j < |env.world.gameInstance.value| ==>
                          !IsPlayerFor(env.world.gameInstance.value[j], id)
  {
    match env.world.gameInstance
    case None => None
    case Some(slots) => FirstPlayerFor(slots, id)
  }

  method GetLocalPlayerFromControllerId(env: Env, controllerId: int) returns (player: Option<nat>)
    requires env.world.World?
    ensures player == LocalPlayerFor(env, controllerId)
  {
    if env.world.gameInstance.Some? {
      var players := env.world.gameInstance.value;
      var i := 0;
      while i < |players|
        invariant 0 <= i <= |players|
        invariant forall j :: 0 <= j < i ==> !IsPlayerFor(players[j], controllerId)
      {
        if players[i].LocalPlayer? && players[i].controllerId == controllerId {
          return Some(i);
        }
        i := i + 1;
      }
    }
    return None;
  }

  // ---------------------------------------------------------------- dispatch

  /** The controller of slot `k` of a present game instance. */
  function ControllerAt(env: Env, k: nat): (c: Controller)
    requires env.world.World? && env.world.gameInstance.Some?
    requires k < |env.world.gameInstance.value|
  {
    var slot := env.world.gameInstance.value[k];
    if slot.LocalPlayer? then slot.controller else NoController
  }

  /** The controller id after an override delegate that ran. */
  function AfterOverride(o: Override, id: int): (r: int)
  {
    if o.OverrideBound? && o.setsControllerId.Some? then o.setsControllerId.value else id
  }

  /** The dispatch chain reaches the player lookup: neither the console nor the override
      consumed the event. */
  predicate ChainReachesLookup(env: Env, o: Override)
  {
    !(env.console.Console? && env.console.consumes) && !(o.OverrideBound? && o.consumes)
  }

  /** Lookup of the target player and, if it has a controller, its answer. */
  function PlayerStep(env: Env, id: int): (r: Routing)
    requires env.world.World?
  {
    var p := LocalPlayerFor(env, id);
    if p.Some? && ControllerAt(env, p.value).Controller? then
      Routing(ControllerAt(env, p.value).consumes, [Lookup(id), Consult(PlayerController(p.value))])
    else
      Routing(false, [Lookup(id)])
  }

  /** The console's part of a dispatch: its answer, if there is a console. */
  function ConsoleStep(env: Env): (r: Routing)
  {
    if env.console.Console? then Routing(env.console.consumes, [Consult(ViewportConsole)])
    else Routing(false, [])
  }

  /** The override's part of a dispatch: its answer, if it is bound. */
  function OverrideStep(o: Override): (r: Routing)
  {
    if o.OverrideBound? then Routing(o.consumes, [Consult(OverrideDelegate)])
    else Routing(false, [])
  }

  /** Console, then override, then the target player's controller; the first to
      consume wins. */
  function DispatchChain(env: Env, o: Override, id: int): (r: Routing)
    requires ChainReachesLookup(env, o) ==> env.world.World?
  {
    var console := ConsoleStep(env);
    if console.consumed then console
    else
      var over := OverrideStep(o);
      if over.consumed then Routing(true, console.trace + over.trace)
      else
        var player := PlayerStep(env, AfterOverride(o, id));
        Routing(player.consumed, console.trace + over.trace + player.trace)
  }

  /** The editor's debugger hook is bound and consumes the key. */
  predicate HookConsumes(env: Env)
  {
    env.withEditor && env.debuggerHook.HookBound? && env.debuggerHook.consumes
  }

  /** A key event reaches the player lookup. */
  predicate KeyReachesLookup(env: Env)
  {
    !env.togglesFullscreen && !env.ignoreInput && !HookConsumes(env) &&
    ChainReachesLookup(env, env.keyOverride)
  }

  /** What InputKey dereferences on the paths it takes: the game instance of a present
      world in the remap rule, and the world in the lookup. */
  predicate KeyCallable(env: Env)
  {
    (env.togglesFullscreen || GameInstanceReachable(env)) &&
    (KeyReachesLookup(env) ==> env.world.World?)
  }

  /** The effects a key event leaves before the ignore-input check: the latency marker
      for a left mouse button press, then the remap rule. */
  function KeyPrefix(env: Env, key: Key, event: InputEvent): (effects: seq<Effect>)
    requires GameInstanceReachable(env)
  {
    (if key == LeftMouseButton && event == Pressed then [LatencyMarker] else []) +
    RemapEffects(env, key)
  }

  /** The debugger hook is consulted when the editor is built in and the hook is bound. */
  function HookTrace(env: Env): (effects: seq<Effect>)
  {
    if env.withEditor && env.debuggerHook.HookBound? then [Consult(Debugger)] else []
  }

  /** The routing of a key event after the remap rule gave it controller id `id`:
      the ignore-input check, the broadcast, the debugger hook and the dispatch chain,
      with a mouse button counted as consumed. */
  function KeyDispatch(env: Env, id: int, key: Key): (r: Routing)
    requires KeyCallable(env) && !env.togglesFullscreen
  {
    if env.ignoreInput then ConsoleStep(env)
    else if HookConsumes(env) then Routing(true, [Broadcast] + HookTrace(env))
    else
      var chain := DispatchChain(env, env.keyOverride, id);
      Routing(chain.consumed || key.IsMouseButton(), [Broadcast] + HookTrace(env) + chain.trace)
  }

  /** The routing of one key event. */
  function KeyRouting(env: Env, id: int, key: Key, event: InputEvent): (r: Routing)
    requires KeyCallable(env)
  {
    if env.togglesFullscreen then Routing(true, [])
    else
      var after := KeyDispatch(env, RemappedId(env, id, key), key);
      Routing(after.consumed, KeyPrefix(env, key, event) + after.trace)
  }

  /** Offers the event to the console, then to the override delegate `o` (which may
      rewrite the event's controller id), then to the controller of the local player
      for the event's controller id, stopping at the first that consumes it. Both
      InputKey and InputAxis run this chain. */
  method RouteToHandlers(env: Env, o: Override, args: KeyEventArgs) returns (result: bool, routed: seq<Effect>)
    requires ChainReachesLookup(env, o) ==> env.world.World?
    modifies args
    ensures Routing(result, routed) == DispatchChain(env, o, old(args.controllerId))
    ensures args.key == old(args.key) && args.event == old(args.event)
    ensures args.controllerId ==
            (if ConsoleStep(env).consumed then old(args.controllerId) else AfterOverride(o, old(args.controllerId)))
  {
    ghost var id := args.controllerId;
    routed := [];
    result := false;
    if env.console.Console? {
      routed := routed + [Consult(ViewportConsole)];
      result := env.console.consumes;
    }
    if !result && o.OverrideBound? {
      routed := routed + [Consult(OverrideDelegate)];
      result := o.consumes;
      if o.setsControllerId.Some? {
        args.controllerId := o.setsControllerId.value;
      }
    }
    if !result {
      assert args.controllerId == AfterOverride(o, id);
      routed := routed + [Lookup(args.controllerId)];
      var player := GetLocalPlayerFromControllerId(env, args.controllerId);
      if player.Some? && ControllerAt(env, player.value).Controller? {
        routed := routed + [Consult(PlayerController(player.value))];
        result := ControllerAt(env, player.value).consumes;
      }
    }
  }

  /** InputKey from the ignore-input check on, for event arguments that have been
      remapped already. */
  method RouteKey(env: Env, args: KeyEventArgs) returns (result: bool, trace: seq<Effect>)
    requires KeyCallable(env) && !env.togglesFullscreen
    modifies args
    ensures Routing(result, trace) == KeyDispatch(env, old(args.controllerId), old(args.key))
    ensures args.key == old(args.key) && args.event == old(args.event)
    ensures args.controllerId ==
            (if env.ignoreInput || HookConsumes(env) || ConsoleStep(env).consumed then old(args.controllerId)
             else AfterOverride(env.keyOverride, old(args.controllerId)))
  {
    trace := [];
    if env.ignoreInput {
      if env.console.Console? {
        trace := trace + [Consult(ViewportConsole)];
        return env.console.consumes, trace;
      }
      return false, trace;
    }

    trace := trace + [Broadcast];

    if env.withEditor && env.debuggerHook.HookBound? {
      trace := trace + [Consult(Debugger)];
      if env.debuggerHook.consumes {
        return true, trace;
      }
    }

    var routed;
    result, routed := RouteToHandlers(env, env.keyOverride, args);
    trace := trace + routed;
    // a viewport always counts a mouse button as consumed, so input is not throttled
    if !result && args.key.IsMouseButton() {
      result := true;
    }
  }

  method InputKey(env: Env, inArgs: KeyEventArgs) returns (consumed: bool, trace: seq<Effect>)
    requires KeyCallable(env)
    ensures Routing(consumed, trace) == KeyRouting(env, inArgs.controllerId, inArgs.key, inArgs.event)
  {
    // the handlers see a copy of the caller's event arguments
    var args := new KeyEventArgs(inArgs.controllerId, inArgs.key, inArgs.event);
    ghost var id, key, event := args.controllerId, args.key, args.event;
    if env.togglesFullscreen {
      return true, [];
    }

    trace := [];
    if args.key == LeftMouseButton && args.event == Pressed {
      trace := [LatencyMarker];
    }
    var remapEffects := RemapControllerInput(env, args);
    trace := trace + remapEffects;
    assert trace == KeyPrefix(env, key, event);
    assert args.controllerId == RemappedId(env, id, key);

    var routed;
    consumed, routed := RouteKey(env, args);
    trace := trace + routed;
  }

  /** The viewport is a Slate play-in-editor viewport. */
  predicate SlatePie(env: Env)
  {
    env.isSlate && env.isPlayInEditor
  }

  /** Axis input is held back from gameplay: a Slate play-in-editor viewport with an
      open console. */
  predicate AxisHeldBack(env: Env)
  {
    SlatePie(env) && env.console.Console? && env.console.active
  }

  /** An axis event reaches the player lookup. */
  predicate AxisReachesLookup(env: Env)
  {
    !env.ignoreInput && !AxisHeldBack(env) && ChainReachesLookup(env, env.axisOverride)
  }

  /** What InputAxis dereferences on the paths it takes. */
  predicate AxisCallable(env: Env)
  {
    (env.ignoreInput || GameInstanceReachable(env)) &&
    (AxisReachesLookup(env) ==> env.world.World?)
  }

  /** The routing of an axis event after the remap rule gave it controller id `id`:
      the broadcast, then the dispatch chain unless the axis is held back, with every
      axis of a Slate play-in-editor viewport counted as consumed. */
  function AxisDispatch(env: Env, id: int): (r: Routing)
    requires AxisCallable(env) && !env.ignoreInput
  {
    if AxisHeldBack(env) then Routing(false, [Broadcast])
    else
      var chain := DispatchChain(env, env.axisOverride, id);
      Routing(chain.consumed || SlatePie(env), [Broadcast] + chain.trace)
  }

  /** The routing of one axis event whose device maps to controller id `id`. */
  function AxisRouting(env: Env, id: int, key: Key): (r: Routing)
    requires AxisCallable(env)
  {
    if env.ignoreInput then Routing(false, [])
    else
      var after := AxisDispatch(env, RemappedId(env, id, key));
      Routing(after.consumed, RemapEffects(env, key) + after.trace)
  }

  /** `controllerId` is the id the engine assigns to the event's input device. */
  method InputAxis(env: Env, controllerId: int, key: Key) returns (consumed: bool, trace: seq<Effect>)
    requires AxisCallable(env)
    ensures Routing(consumed, trace) == AxisRouting(env, controllerId, key)
  {
    trace := [];
    if env.ignoreInput {
      return false, trace;
    }

    var args := new KeyEventArgs(controllerId, key, Axis);
    var remapEffects := RemapControllerInput(env, args);
    trace := remapEffects + [Broadcast];

    var result := false;
    if !(env.isSlate && env.isPlayInEditor) || env.console.NoConsole? || !env.console.active {
      var routed;
      result, routed := RouteToHandlers(env, env.axisOverride, args);
      AppendAssoc(remapEffects, [Broadcast], routed);
      trace := trace + routed;
      // absorb every axis so that game input does not reach the editor frame
      if env.isSlate && env.isPlayInEditor {
        result := true;
      }
    }
    return result, trace;
  }
}
