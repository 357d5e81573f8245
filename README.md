# TikiTandems viewport client: input routing model

TikiTandems overrides the engine's game viewport client, `UTikiTandemsViewportClient`, so
that on a shared screen controller 0 drives player 1 and the keyboard always belongs to
player 0. This project models that class's input routing and proves what it promises.

- **Remap rule** (`RemapControllerInput`). Suppose there are several local players, the key
  is a gamepad key, and the "offset player gamepad ids" setting is on. Then the event's
  controller id goes up by one. Otherwise, a gamepad key in a play-in-editor viewport goes
  to the engine's play-in-editor remap. In every other case the id is kept.
- **Player lookup** (`GetLocalPlayerFromControllerId`). A scan over the game instance's
  local-player array. It returns the first non-null player with the given controller id.
- **Key dispatch** (`InputKey`):
  1. the fullscreen toggle;
  2. the latency marker for a left mouse button press;
  3. the remap;
  4. the ignore-input check, which leaves only the console;
  5. the broadcast;
  6. the editor's debugger hook;
  7. the first-consumer-wins chain: console, then override delegate (which may rewrite the
     controller id), then the controller of the local player found for the id;
  8. the rule that a mouse button always counts as consumed.
- **Axis dispatch** (`InputAxis`):
  1. the ignore-input check, which drops the event;
  2. the remap;
  3. the broadcast;
  4. the same chain, unless a Slate play-in-editor viewport has its console open;
  5. the rule that a Slate play-in-editor viewport absorbs every axis event that reached
     the chain in step 4.

Engine collaborators are modelled as one immutable value, `InputTypes.Env`, that a call
reads:
- the console and its answer;
- the delegates, bound or not, with their answers;
- the viewport flags;
- the offset setting;
- the world, its game instance and its local-player slots;
- the play-in-editor remap, as an uninterpreted function on ids.

The event arguments are a class, `KeyEventArgs`, whose controller id the remap rule and the
override update in place. Each call also returns a trace of its observable effects:
- the latency marker;
- the remap;
- a call to the play-in-editor remap;
- the broadcast;
- the player lookup, with its id;
- each handler offered the event.

Each method is proved equal to a specification function:
- `RemappedId` for the remap;
- `LocalPlayerFor` for the lookup;
- `KeyRouting` for key events and `AxisRouting` for axis events.

Module `ViewportProperties` proves the routing rules about those functions. It compares the
hand-written chain with an independent first-consumer-wins definition,
`PriorityChain.FirstConsumer`.

Modules:
- `InputTypes`: values, the environment, the event-argument class.
- `Trace`: counting effects, and listing the handlers consulted.
- `PriorityChain`: the reference first-consumer-wins rule.
- `ViewportClient`: the four operations and their specification functions.
- `ViewportProperties`: the properties.

## Model

All source paths are `Source/TikiTandems/TikiTandemsViewportClient.cpp`.

| member | source | states |
|---|---|---|
| ViewportClient.RemapControllerInput | Source/TikiTandems/TikiTandemsViewportClient.cpp:129-141 | The event's new controller id is the remap rule applied to its old id and key: +1 under the offset rule, the play-in-editor remap when asked, otherwise unchanged. Key and event are unchanged. The effects record the remap, and whether the engine's play-in-editor remap was asked. |
| ViewportClient.FirstPlayerFor | Source/TikiTandems/TikiTandemsViewportClient.cpp:147-153 | A returned index holds a non-null local player with the id, and no earlier slot does. No index is returned only if no slot holds such a player. |
| ViewportClient.LocalPlayerFor | Source/TikiTandems/TikiTandemsViewportClient.cpp:143-156 | A player is found only through a present game instance, and it is the first match in collection order. Nothing is found when the game instance is absent or no slot matches. |
| ViewportClient.GetLocalPlayerFromControllerId | Source/TikiTandems/TikiTandemsViewportClient.cpp:143-156 | The linear scan with early return yields exactly the first-match lookup. |
| ViewportClient.RouteToHandlers | Source/TikiTandems/TikiTandemsViewportClient.cpp:50-62 | It offers the event to the console, then the override delegate (which may rewrite the id), then the found player's controller. The answer and trace are those of the dispatch chain for the incoming id, and the key and event are not changed. The id left on the event is the override's rewrite unless the console consumed the event first. It also carries InputAxis at lines 100-117. |
| ViewportClient.RouteKey | Source/TikiTandems/TikiTandemsViewportClient.cpp:31-72 | From the ignore-input check on, the answer and trace of a remapped key event are the key dispatch: console only while input is ignored, then broadcast, debugger hook, chain and mouse-button rule. Key and event are not changed. The id left on the event is the override's rewrite when the chain got past the console, and otherwise the incoming id. |
| ViewportClient.InputKey | Source/TikiTandems/TikiTandemsViewportClient.cpp:14-73 | The answer and effect trace of a key event equal the key routing of the caller's id, key and event. It works on a copy, so the caller's arguments are not changed. |
| ViewportClient.InputAxis | Source/TikiTandems/TikiTandemsViewportClient.cpp:75-127 | The answer and effect trace of an axis event equal the axis routing of the device's id and key. |
| PriorityChain.FirstConsumerWins | Source/TikiTandems/TikiTandemsViewportClient.cpp:50-62 | The handlers consulted are a prefix of the chain, and all but the last declined. The event is consumed iff some candidate consumes it, and then by the last handler consulted. If nobody consumes it, every candidate was consulted. |
| PriorityChain.FirstConsumerDeclined | Source/TikiTandems/TikiTandemsViewportClient.cpp:50-57 | Candidates that all decline are consulted in order, and the outcome is then decided by the rest of the chain. |
| ViewportProperties.DispatchChainIsFirstConsumer | Source/TikiTandems/TikiTandemsViewportClient.cpp:50-62 | The hand-written console → override → player-controller chain has the same answer and consults the same handlers in the same order as first-consumer-wins over those candidates. The player candidate is looked up under the id the override leaves on the event. |
| ViewportProperties.FullscreenToggleShortCircuits | Source/TikiTandems/TikiTandemsViewportClient.cpp:18-21 | A key that toggles fullscreen is consumed with an empty trace: no marker, remap, broadcast or handler. |
| ViewportProperties.LatencyMarkerOnce | Source/TikiTandems/TikiTandemsViewportClient.cpp:23-26 | A left mouse button press leaves the latency marker exactly once, as the first effect, whatever the dispatch decides. Any other key or event never leaves it. |
| ViewportProperties.KeyRemapOnceBeforeLookup | Source/TikiTandems/TikiTandemsViewportClient.cpp:29-59 | Every key event that does not toggle fullscreen runs the remap exactly once and asks the play-in-editor remap at most once. Every handler consultation and every lookup comes after the remap, and every lookup uses the remapped id, or the id the override wrote. |
| ViewportProperties.IgnoredKeyReachesOnlyConsole | Source/TikiTandems/TikiTandemsViewportClient.cpp:31-34 | While input is ignored, a key's answer is the console's, or false without a console. Nothing is broadcast, and the console is the only handler consulted. |
| ViewportProperties.KeyDispatchPriority | Source/TikiTandems/TikiTandemsViewportClient.cpp:38-69 | After the remap, a key not taken by the debugger hook is consumed iff first-consumer-wins consumes it or it is a mouse button. Handlers are consulted in that chain's order, after the hook when the hook is bound. |
| ViewportProperties.KeyPriority | Source/TikiTandems/TikiTandemsViewportClient.cpp:50-69 | The same as KeyDispatchPriority for the whole InputKey, over candidates looked up under the remapped id. |
| ViewportProperties.HookConsumesStops | Source/TikiTandems/TikiTandemsViewportClient.cpp:38-47 | A key the bound debugger hook consumes is reported consumed. The hook is the only handler consulted, and no local player is looked up. |
| ViewportProperties.MouseButtonAlwaysConsumed | Source/TikiTandems/TikiTandemsViewportClient.cpp:64-68 | Once past the ignore-input check, a mouse button is always reported consumed. |
| ViewportProperties.IgnoredAxisIsDropped | Source/TikiTandems/TikiTandemsViewportClient.cpp:79-82 | While input is ignored, an axis event is not consumed, and there is no remap, broadcast or handler. |
| ViewportProperties.HeldBackAxisReachesNoHandler | Source/TikiTandems/TikiTandemsViewportClient.cpp:97-124 | In a Slate play-in-editor viewport with the console open, an axis event is broadcast but offered to no handler, and it is not consumed. |
| ViewportProperties.SlatePieAbsorbsAxis | Source/TikiTandems/TikiTandemsViewportClient.cpp:119-123 | In a Slate play-in-editor viewport without an open console, every axis event is consumed. |
| ViewportProperties.AxisPriority | Source/TikiTandems/TikiTandemsViewportClient.cpp:97-123 | An axis event that is not held back consults exactly the handlers first-consumer-wins over console, override and player controller consults, in that order. Its answer is that chain's answer, or true in a Slate play-in-editor viewport; no mouse-button rule applies. |
| ViewportProperties.AxisRemapOnceBeforeLookup | Source/TikiTandems/TikiTandemsViewportClient.cpp:88-113 | An axis event that is not ignored runs the remap exactly once and asks the play-in-editor remap at most once. Every handler consultation and every lookup comes after the remap, and every lookup uses the remapped id, or the id the override wrote. |
| ViewportProperties.RemapOnceBeforeLookup | Source/TikiTandems/TikiTandemsViewportClient.cpp:29-59 | Any trace shaped as marker?, remap, play-in-editor remap?, then only broadcasts, consultations and lookups of one id has one remap, and every consultation and lookup follows it. |
| ViewportProperties.OffsetRuleIncrements | Source/TikiTandems/TikiTandemsViewportClient.cpp:133-136 | Several local players, a gamepad key and the offset setting on: the id goes up by exactly one, and the play-in-editor remap is not asked, even in play-in-editor. |
| ViewportProperties.NoWorldNoOffset | Source/TikiTandems/TikiTandemsViewportClient.cpp:131-140 | Without a world the player count is zero, so the offset rule never fires. |
| ViewportProperties.NonGamepadKeyKeepsId | Source/TikiTandems/TikiTandemsViewportClient.cpp:133-140 | A key that is not a gamepad key keeps its id, and nothing but the remap itself is recorded. |
| ViewportProperties.SingleLocalPlayerIgnoresOffset | Source/TikiTandems/TikiTandemsViewportClient.cpp:131-140 | With at most one local player the offset setting makes no difference. A gamepad key in play-in-editor goes to the engine's remap; otherwise the id is kept. |
| ViewportProperties.IncrementIffOffsetRule | Source/TikiTandems/TikiTandemsViewportClient.cpp:133-140 | When the play-in-editor remap is not asked, the id goes up by one iff the offset rule fires, and is otherwise unchanged. |
| ViewportProperties.TwoPlayerGamepadScenario | Source/TikiTandems/TikiTandemsViewportClient.cpp:133-136 | Two players with the offset on: a gamepad key on controller 0 is routed as controller 1. With no console, no override and no player on id 1, it is looked up under id 1 and not consumed. |
| ViewportProperties.SinglePlayerKeyboardScenario | Source/TikiTandems/TikiTandemsViewportClient.cpp:57-62 | A single player on id 0 with a controller, no console and no override: a keyboard key reaches that controller, and the controller's answer is the result. |

## Left out

- **Engine calls.** What the engine's play-in-editor remap does (cpp:139) is an
  uninterpreted function on ids, and its call is recorded as an effect. The latency marker
  and the frame counter (cpp:25) are one trace effect. The Slate modifier keys passed to
  the debugger hook (cpp:42) are not modelled.
- **Delegates.** Each delegate is bound or unbound, with a boolean answer. An override
  delegate may rewrite the controller id (cpp:51, 105). Rewriting the key or other fields
  is not modelled. What is broadcast to observers is not modelled; the broadcast itself is
  one trace effect.
- **Handler answers.** The console's and each player controller's answer to the one event
  being routed are fixed values in the environment. Each local player carries its own
  controller's answer.
- **Passed-through values.** `Delta`, `DeltaTime`, `NumSamples`, `AmountDepressed`, the
  input device and the `bGamepad` flag are not modelled. They are only passed on, with no
  arithmetic. The controller id InputAxis derives from its input device is a parameter.
- **Viewport flags.** The play-in-editor and Slate flags are read from the one viewport the
  event belongs to.
- **Build flag.** `WITH_EDITOR` (cpp:38-47) is a boolean of the environment, not a
  compile-time branch.
- **Fullscreen toggle.** What toggling fullscreen does to the window is not modelled. Only
  the fact that it ends the call is.
- **Null dereferences.** Two paths dereference null and are excluded by preconditions
  (`KeyCallable`, `AxisCallable`): the remap rule dereferences the game instance of a
  present world unchecked (cpp:131), and the lookup dereferences the world unchecked
  (cpp:145).
- ViewportClient.RemapControllerInput: does not model 32-bit wrap-around of the
  `ControllerId++` increment at the largest id, because ids are unbounded integers.
- **Single local player in play-in-editor.** With one local player the offset setting has
  no effect, but a gamepad key in a play-in-editor viewport still goes to the engine's
  remap (cpp:137-140), so the id is not always unchanged there. The model follows the
  code (see
  `ViewportProperties.SingleLocalPlayerIgnoresOffset`).
- **Header file.** The header, the reflection macros and the delegate declarations hold no
  logic and are not part of this model.
- **Dispatch helpers.** `RouteKey` and `RouteToHandlers` are parts of the source's
  `InputKey` (cpp:31-72) and of the chain shared with `InputAxis` (cpp:50-62, 100-117),
  split out as methods. Nothing is added to the behaviour.
