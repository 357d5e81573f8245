/** The values the viewport client's input routing reads: the key event, the engine
    collaborators it consults, and the observable effects a routing call leaves behind. */
module InputTypes {

  datatype Option<+T> = None | Some(value: T)

  lemma AppendAssoc<T>(a: seq<T>, b: seq<T>, c: seq<T>)
    ensures a + (b + c) == a + b + c
  {
  }

  /** The only attributes of an input key that the routing rules test. */
  datatype Key = LeftMouseButton | OtherMouseButton | GamepadKey | OtherKey
  {
    predicate IsMouseButton() { LeftMouseButton? || OtherMouseButton? }
    predicate IsGamepadKey() { GamepadKey? }
  }

  /** The kind of an input event (pressed, released, ... or an axis change). */
  datatype InputEvent = Pressed | Released | Repeat | DoubleClick | Axis

  /** The viewport console, if there is one: whether it is open, and its answer to this event. */
  datatype Console = NoConsole | Console(active: bool, consumes: bool)

  /** The editor's debugger key-binding delegate: unbound, or bound with its answer. */
  datatype DebuggerHook = HookUnbound | HookBound(consumes: bool)

  /** An override delegate: unbound, or bound with its answer; when it runs it may
      rewrite the controller id of the event it is handed. */
  datatype Override = OverrideUnbound | OverrideBound(consumes: bool, setsControllerId: Option<int>)

  /** The player controller of a local player, if any, with its answer to this event. */
  datatype Controller = NoController | Controller(consumes: bool)

  /** One entry of the game instance's local-player array; an entry may be null. */
  datatype Slot = NullSlot | LocalPlayer(controllerId: int, controller: Controller)

  /** The viewport's world: absent, or present with a game instance (which may be absent)
      holding the local players in collection order. */
  datatype WorldState = NoWorld | World(gameInstance: Option<seq<Slot>>)

  /** Everything outside the viewport client that one input call observes. */
  datatype Env = Env(
    togglesFullscreen: bool,       // the key/event matches the fullscreen-toggle binding
    ignoreInput: bool,             // the viewport's IgnoreInput() flag
    console: Console,
    withEditor: bool,              // built with the editor (the debugger hook exists)
    debuggerHook: DebuggerHook,
    keyOverride: Override,         // override delegate for key events
    axisOverride: Override,        // override delegate for axis events
    isPlayInEditor: bool,          // the viewport is a play-in-editor viewport
    isSlate: bool,                 // the viewport is a Slate viewport
    offsetPlayerGamepadIds: bool,  // the game-maps setting "offset player gamepad ids"
    world: WorldState,
    pieRemap: int -> int)          // the engine's play-in-editor controller-id remap

  /** The handlers a routing call may offer the event to. */
  datatype Handler = Debugger | ViewportConsole | OverrideDelegate | PlayerController(slot: nat)

  /** What a routing call observably does, in order. */
  datatype Effect =
    | LatencyMarker             // the flash-indicator latency marker is set
    | Remap                     // the controller-id remap rule runs
    | PieRemap                  // the remap rule asks the engine's play-in-editor remap
    | Broadcast                 // the passive input event is broadcast to observers
    | Lookup(controllerId: int) // the local player for this id is looked up
    | Consult(handler: Handler) // a handler is offered the event

  /** The mutable key event arguments handed through the routing. */
  class KeyEventArgs {
    var controllerId: int
    var key: Key
    var event: InputEvent

    constructor (controllerId: int, key: Key, event: InputEvent)
      ensures this.controllerId == controllerId && this.key == key && this.event == event
    {
      this.controllerId := controllerId;
      this.key := key;
      this.event := event;
    }
  }
}
