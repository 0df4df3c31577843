# path-builder core, modelled in Dafny

This project models the interactive core of the path-builder canvas demo: an
entity-component world of circles that move, are hovered and dragged with the
mouse, and are drawn with a colour string, together with the domain/level log
filter every system logs through. One Dafny module stands for each source
file:

- `Ecs` (ecs.dfy) is the shared world. Entity ids are `nat`. The Position,
  Movement and Render columns are maps keyed by entity: an entity without an
  entry stands for the source's `undefined` slot, which turns every
  comparison into a NaN comparison that fails. Draggable, Hover and Dragging
  are sets. A query result is a *snapshot*: a sequence of distinct ids whose
  elements are exactly the entities holding the queried components, taken
  before the system changes anything.
- `MouseCapture` (mouse_capture.dfy) is the hit test `findControlPointAt`,
  `screenToWorld`, and the capture system's state machine. That state is the
  `isActive` flag plus the shared mouse record, held in the class
  `MouseCaptureSystem`. The hit test compares squared distances over reals:
  both the threshold `max(CLICK_RADIUS, radius)` and the running best are
  non-negative, so `sqrt(d) < t` is `d < t*t`. Its reference result
  `ClosestHit` is the unique index that qualifies, is strictly closer than
  every earlier qualifier and no farther than every later one. The running
  best starts at `CLICK_RADIUS + 1`, so no entity farther than that is ever
  returned, whatever its radius.
- `MouseInteraction`, `DragSystem` and `Movement` are the three per-frame
  systems. Each is a method over the `World` object that states its new
  Hover/Dragging sets or its new Position column, and is framed so that
  nothing else changes.
- `Entities` is the random entity factory. Every `Math.random()` draw is a
  parameter in [0, 1), in drawing order. JavaScript's `<<`, `>>`, `|` and `&`
  on the non-negative colour values are defined arithmetically, bit by bit.
  The colour is packed and unpacked as three base-256 digits.
- `Render` covers the renderer's value computations only. These are the
  `#rrggbb` fill string, `toString(16)` followed by `padStart(6, '0')`, with
  a hex parser as its inverse, and the scaled circle an entity is drawn as.
- `LoggerUtils` is the mutable log filter. It is a class holding the
  `LoggerUtilsConfig` and `LoggerConfig` records. Its decisions
  (`isDomainEnabled`, `isLevelEnabled`, `shouldLog`) are specified by
  predicates over those two records (`DomainEnabled`, `LevelEnabled`,
  `Admits`).
- `Logger` is the domain logger. The console is modelled as the emission a
  call returns: the channel and the formatted line, or nothing. The clock
  text (`toISOString`) and the JSON text of `data` are strings supplied by
  the caller.
- `Config` (config.dfy) holds the constants of `GAME_CONFIG` that the core
  reads. `Wrappers` (wrappers.dfy) holds the option type.

Some observable consequences of the code are proved as stated:

- The log demo expects two things the filter does not do.
  - `disableDomain` has no effect while the all-domains flag is set
    (`LoggerUtils.LoggerUtils.DisableDomain`).
  - Enabling only `error` admits every level, because `shouldLog` compares
    against the most severe enabled level
    (`LoggerUtils.ErrorAloneAdmitsAll`, `LoggerUtils.AdmittedButNotEnabled`).

  The model follows the filter's code.
- `mouse.selected = entity || 0` makes a hit on entity 0 indistinguishable
  from a miss (`MouseCapture.HitOnZeroLooksLikeMiss`). Together with the
  `selected > 0` guard of the interaction system, this means entity 0 never
  starts a drag. Ids in this model start at 0; the entity allocator of the
  ECS library is not part of this model.

## Model

| member | source | states |
|---|---|---|
| `MouseCapture.Threshold` | src/ecs/systems/mouseCapture.ts:45-46 | the hit threshold is the larger of `CLICK_RADIUS` and the entity radius: at least both, and equal to one of them |
| `MouseCapture.WinnerExists` | src/ecs/systems/mouseCapture.ts:38-52 | when any candidate among the first n qualifies, some index wins the scan: it qualifies, every earlier qualifier is strictly farther and no later qualifier is closer |
| `MouseCapture.WinnerUnique` | src/ecs/systems/mouseCapture.ts:48 | two winning indices are equal, so exact ties always go to the earlier candidate |
| `MouseCapture.ClosestHit` | src/ecs/systems/mouseCapture.ts:31-55 | the reference hit test is empty exactly when no candidate qualifies, and otherwise returns the entity at the winning index |
| `MouseCapture.HitIsWithinRadius` | src/ecs/systems/mouseCapture.ts:36-48 | a returned entity is in the candidate list, has a position and radius, lies within its threshold and also strictly within `CLICK_RADIUS + 1` |
| `MouseCapture.FindControlPointAt` | src/ecs/systems/mouseCapture.ts:31-55 | the running-best scan returns exactly the reference hit (no entity for an empty list or no qualifier) |
| `MouseCapture.ScreenToWorld` | src/ecs/systems/mouseCapture.ts:23-28 | world coordinates times the scale give back the screen coordinates |
| `MouseCapture.SelectedId` | src/ecs/systems/mouseCapture.ts:88 | `selected` is the hit entity's id, and 0 when there is no hit |
| `MouseCapture.HitOnZeroLooksLikeMiss` | src/ecs/systems/mouseCapture.ts:87-88 | a hit on entity 0 leaves the same `selected` as no hit |
| `MouseCapture.MouseCaptureSystem.constructor` | src/ecs/systems/mouseCapture.ts:10-20 | a new capture system is inactive, with the all-zero mouse record and the given scales |
| `MouseCapture.MouseCaptureSystem.Located` | src/ecs/systems/mouseCapture.ts:61-69 | the relocated record has screen = client minus canvas offset and world = screen / scale, and keeps `isDown` and `selected` |
| `MouseCapture.MouseCaptureSystem.OnMouseMove` | src/ecs/systems/mouseCapture.ts:58-70 | inactive: the record is unchanged; active: only the coordinates change, never `isDown` or `selected` |
| `MouseCapture.MouseCaptureSystem.OnMouseDown` | src/ecs/systems/mouseCapture.ts:72-93 | inactive: unchanged; active: coordinates relocated, button down, `selected` the reference hit at the new world point or 0 |
| `MouseCapture.MouseCaptureSystem.OnMouseUp` | src/ecs/systems/mouseCapture.ts:95-111 | inactive: unchanged; active: coordinates relocated, button up, `selected` 0 |
| `MouseCapture.MouseCaptureSystem.Start` | src/ecs/systems/mouseCapture.ts:113-131 | on an inactive system: zero the record and activate; on an active one: no change |
| `MouseCapture.MouseCaptureSystem.Stop` | src/ecs/systems/mouseCapture.ts:133-143 | afterwards the system is inactive; the mouse record is never touched |
| `MouseCapture.MouseCaptureSystem.GetMouse` | src/ecs/systems/mouseCapture.ts:145-148 | both getters return the current mouse record, as a value |
| `MouseInteraction.Contains` | src/ecs/systems/mouseInteraction.ts:66-72 | the flag loop with `break` finds the id exactly when it is in the snapshot |
| `MouseInteraction.HoverWinner` | src/ecs/systems/mouseInteraction.ts:33-51 | the hover target is at most one entity, a draggable that qualifies under the hit test |
| `MouseInteraction.Activated` | src/ecs/systems/mouseInteraction.ts:64-88 | a selected draggable with id > 0 ends up dragging; re-adding one already dragging is a no-op; a 0 or non-draggable selection changes nothing; at most the selected id is added |
| `MouseInteraction.MouseInteractionSystem` | src/ecs/systems/mouseInteraction.ts:11-100 | no mouse: nothing changes; button up: Hover is exactly the hit-test winner and Dragging is emptied; button down: Hover is untouched and Dragging is `Activated`; positions, radii and Draggable are never written |
| `MouseInteraction.AtMostOneHovered` | src/ecs/systems/mouseInteraction.ts:25-60 | after a button-up frame at most one entity is hovered, and it is a draggable |
| `DragSystem.Snapped` | src/ecs/systems/dragSystem.ts:27-31 | every target sits exactly at the pointer, every other entity keeps its position, and no other entry appears |
| `DragSystem.DragSystem` | src/ecs/systems/dragSystem.ts:11-32 | no mouse or button up: positions unchanged; otherwise the Position column is `Snapped` to the pointer over the Dragging set; nothing else is written |
| `DragSystem.SnapOneMore` | src/ecs/systems/dragSystem.ts:28-31 | snapping one more entity is one column write, so the loop computes `Snapped` |
| `DragSystem.NothingDraggedKeepsPositions` | src/ecs/systems/dragSystem.ts:19-21 | with nothing dragging every position is kept |
| `DragSystem.SnapIdempotent` | src/ecs/systems/dragSystem.ts:27-31 | dragging twice with the same pointer equals dragging once |
| `Movement.Integrated` | src/ecs/systems/movement.ts:11-17 | each mover with a position and a velocity advances by velocity times dt; every other position is kept; no entry is added |
| `Movement.Advance` | src/ecs/systems/movement.ts:15-16 | the displacement of one entity is its velocity times dt; a zero step or a zero velocity keeps the position |
| `Movement.MovementSystem` | src/ecs/systems/movement.ts:7-17 | the Position column becomes `Integrated` over the Position+Movement query; velocities and everything else are not written |
| `Movement.MoveOneMore` | src/ecs/systems/movement.ts:15-16 | moving one more entity is a single `+=` on its entry, so the loop computes `Integrated` |
| `Movement.SameMovers` | src/ecs/systems/movement.ts:8-11 | only the movers that have both a position and a velocity matter |
| `Movement.ZeroStepKeepsPositions` | src/ecs/systems/movement.ts:15-16 | a zero time step leaves every position unchanged |
| `Movement.StepsCompose` | src/ecs/systems/movement.ts:15-16 | one step of dt1 + dt2 equals a step of dt1 followed by one of dt2 |
| `Ecs.World.constructor` | src/ecs/world.ts:5 | a new world has no entities and no components |
| `Ecs.World.AddEntity` | src/ecs/world.ts:8-9 | a new entity gets the next id, which no component mentions yet |
| `Entities.RandomBetween` | src/ecs/entities.ts:6-8 | the result lies in [min, max) when min < max, is min when the range is empty, and is min for the sample 0 |
| `Entities.Scaled` | src/ecs/entities.ts:7 | a unit sample times a positive width lies in [0, width); it is 0 when the width or the sample is 0 |
| `Entities.RandomByte` | src/ecs/entities.ts:12-14 | the channel is the floor of sample times 256 |
| `Entities.ShiftLeftIsMul` | src/ecs/entities.ts:15 | for operands whose result stays below 2^31, `x << k` is x times 2^k |
| `Entities.OrOfDisjoint` | src/ecs/entities.ts:15 | OR of a value shifted left by k with one below 2^k is their sum |
| `Entities.ShiftAndMaskSplit` | src/ecs/entities.ts:15 | `x >> k` and `x & (2^k - 1)` split x into its high and low parts, the low part below 2^k |
| `Entities.PackRgb` | src/ecs/entities.ts:15 | `(r << 16) \| (g << 8) \| b` equals r·65536 + g·256 + b and is below 0x1000000 |
| `Entities.UnpackRgb` | src/ecs/entities.ts:15 | `c >> 16`, `(c >> 8) & 0xff` and `c & 0xff` are the base-256 digits of c |
| `Entities.UnpackPack` | src/ecs/entities.ts:15 | unpacking a packed colour gives back its channels |
| `Entities.PackUnpack` | src/ecs/entities.ts:15 | every colour below 0x1000000 is the packing of its own channels |
| `Entities.RandomColor` | src/ecs/entities.ts:11-16 | the random colour is below 0x1000000 and unpacks to the three sampled bytes |
| `Entities.Sampled` | src/ecs/entities.ts:22-32 | the written position lies in the canvas, each velocity component in [MIN_VELOCITY, MAX_VELOCITY), the colour below 0x1000000 and the radius in [MIN_RADIUS, MAX_RADIUS) |
| `Entities.SpawnedHold` | src/ecs/entities.ts:40-42 | every entity created in a run holds its own sampled components afterwards |
| `Entities.OthersKept` | src/ecs/entities.ts:40-42 | entities that existed before the run keep all their components and gain none |
| `Entities.CreateRandomEntity` | src/ecs/entities.ts:19-35 | the new id is the next one, and the four columns gain exactly its sampled components |
| `Entities.CreateRandomEntities` | src/ecs/entities.ts:38-44 | exactly max(count, 0) entities are created, returned in creation order, each holding its own sampled components |
| `Entities.CreateDefaultEntities` | src/ecs/entities.ts:38 | without an argument, `DEFAULT_ENTITY_COUNT` (8) entities are created, in creation order, each holding its own sampled components |
| `Render.HexDigit` | src/ecs/systems/render.ts:23 | `toString(16)` digits are lowercase hex, and the digit is '0' only for 0 |
| `Render.ToHex` | src/ecs/systems/render.ts:23 | `toString(16)` writes at least one digit, its last digit is n mod 16, and it is one digit long exactly for n < 16 |
| `Render.DigitRoundTrip` | src/ecs/systems/render.ts:23 | reading a written digit gives back its value |
| `Render.ToHexWellFormed` | src/ecs/systems/render.ts:23 | `toString(16)` writes at least one lowercase hex digit, with a leading '0' only for 0 |
| `Render.ParseToHex` | src/ecs/systems/render.ts:23 | parsing what `toString(16)` wrote gives back the number |
| `Render.ToHexLength` | src/ecs/systems/render.ts:23 | `toString(16)` needs at most k digits exactly for the numbers below 16^k |
| `Render.PadStart` | src/ecs/systems/render.ts:23 | `padStart` returns the string itself when it is long enough, else fill characters followed by the string, at the target length |
| `Render.LeadingZeros` | src/ecs/systems/render.ts:23 | leading '0' digits do not change a hex value |
| `Render.ColorString` | src/ecs/systems/render.ts:23 | the fill string is `#`, then '0' fill, then the hex digits of the colour, at least 7 characters in all |
| `Render.ZeroPaddingKeepsValue` | src/ecs/systems/render.ts:23 | zero padding keeps the digits hex and their value unchanged |
| `Render.ColorStringRoundTrip` | src/ecs/systems/render.ts:23 | the fill string is '#' and at least six lowercase hex digits that read back as the colour |
| `Render.ColorStringLength` | src/ecs/systems/render.ts:23 | colours below 0x1000000 give exactly 7 characters; larger ones are not truncated and carry all their digits |
| `Render.MinScale` | src/ecs/systems/render.ts:22 | `Math.min(scaleX, scaleY)` is at most both scales and equal to one of them |
| `Render.DrawnCircle` | src/ecs/systems/render.ts:20-22 | the centre is scaled per axis; the radius is scaled by `Math.min(scaleX, scaleY)`, which is one of the two scales, and by the common scale when they agree |
| `Render.DrawnCentreMapsBack` | src/ecs/systems/render.ts:20-21 | the drawn centre mapped back by `screenToWorld` is the entity's position |
| `Render.DrawnRadiusFitsBothScales` | src/ecs/systems/render.ts:22 | a non-negative radius is drawn at most as large as scaled along either axis, and equal to one of the two |
| `LoggerUtils.GetOr` | src/logger/LoggerUtils.ts:8-14 | a given option overrides the default; an absent one keeps it |
| `LoggerUtils.Rank` | src/logger/LoggerUtils.ts:104-109 | the `levelHierarchy` table orders the levels error 0 < warning 1 < info 2 < debug 3, one rank per level |
| `LoggerUtils.Merged` | src/logger/LoggerUtils.ts:8-14 | each given option overrides its default; absent ones give level `info`, domain `app` and both all-flags on |
| `LoggerUtils.Initialized` | src/logger/LoggerUtils.ts:16-38 | timestamp and console on; the domain set is empty exactly in all-domains mode and otherwise holds just the default domain; the same for levels |
| `LoggerUtils.DomainEnabled` | src/logger/LoggerUtils.ts:59-61 | in all-domains mode every domain is enabled; otherwise exactly the listed ones |
| `LoggerUtils.LevelEnabled` | src/logger/LoggerUtils.ts:86-88 | in all-levels mode every level is enabled; otherwise exactly the listed ones |
| `LoggerUtils.MinRank` | src/logger/LoggerUtils.ts:116 | the minimum rank is at most every enabled level's rank and is the rank of some enabled level |
| `LoggerUtils.Admits` | src/logger/LoggerUtils.ts:95-118 | `shouldLog` is false for a disabled domain; true for every level when all levels are on; false for an empty level set; otherwise true exactly when some enabled level is at least as severe |
| `LoggerUtils.AdmitsMonotone` | src/logger/LoggerUtils.ts:116-117 | admitting a level admits every less severe level |
| `LoggerUtils.ErrorAloneAdmitsAll` | src/logger/LoggerUtils.ts:104-117 | with `error` among the enabled levels, every level passes in an enabled domain |
| `LoggerUtils.AdmittedButNotEnabled` | src/logger/LoggerUtils.ts:86-117 | `shouldLog` can pass a level that `isLevelEnabled` reports as disabled |
| `LoggerUtils.InitializedFilter` | src/logger/LoggerUtils.ts:7-38 | default construction admits everything; with a flag off only the default domain, or the default level, is enabled, and `shouldLog` passes exactly the levels no more severe than the default |
| `LoggerUtils.ToSeq` | src/logger/LoggerUtils.ts:63-65 | `Array.from` of a set lists each element once |
| `LoggerUtils.LoggerUtils.constructor` | src/logger/LoggerUtils.ts:7-24 | the options are merged over the defaults, then the defaults are initialised from a fresh output configuration |
| `LoggerUtils.LoggerUtils.InitializeDefaults` | src/logger/LoggerUtils.ts:26-38 | all-domains clears the domain set, otherwise the default domain is added; the same for levels; the flags are unchanged |
| `LoggerUtils.LoggerUtils.IsDomainEnabled` | src/logger/LoggerUtils.ts:59-61 | true for every domain in all-domains mode; otherwise exactly for the listed domains |
| `LoggerUtils.LoggerUtils.IsLevelEnabled` | src/logger/LoggerUtils.ts:86-88 | true for every level in all-levels mode; otherwise exactly for the listed levels |
| `LoggerUtils.LoggerUtils.ShouldLog` | src/logger/LoggerUtils.ts:95-118 | a pass needs an enabled domain; in all-levels mode every level passes there; otherwise a pass needs some listed level at least as severe, and every listed level passes |
| `LoggerUtils.LoggerUtils.EnableDomain` | src/logger/LoggerUtils.ts:41-43 | adds the domain, which is then enabled; a second call changes nothing |
| `LoggerUtils.LoggerUtils.DisableDomain` | src/logger/LoggerUtils.ts:45-47 | removes the domain, which is then enabled exactly when all domains are; in all-domains mode every domain stays enabled |
| `LoggerUtils.LoggerUtils.EnableAllDomains` | src/logger/LoggerUtils.ts:49-52 | empties the domain set and sets the flag, so every domain is enabled |
| `LoggerUtils.LoggerUtils.DisableAllDomains` | src/logger/LoggerUtils.ts:54-57 | empties the domain set and clears the flag, so no domain is enabled and nothing is logged |
| `LoggerUtils.LoggerUtils.GetEnabledDomains` | src/logger/LoggerUtils.ts:63-65 | lists each explicitly enabled domain once |
| `LoggerUtils.LoggerUtils.EnableLevel` | src/logger/LoggerUtils.ts:68-70 | adds the level, which is then enabled; a second call changes nothing |
| `LoggerUtils.LoggerUtils.DisableLevel` | src/logger/LoggerUtils.ts:72-74 | removes the level, which is then enabled exactly when all levels are |
| `LoggerUtils.LoggerUtils.EnableAllLevels` | src/logger/LoggerUtils.ts:76-79 | empties the level set and sets the flag, so every level passes exactly in the enabled domains |
| `LoggerUtils.LoggerUtils.DisableAllLevels` | src/logger/LoggerUtils.ts:81-84 | empties the level set and clears the flag, so nothing is logged |
| `LoggerUtils.LoggerUtils.GetEnabledLevels` | src/logger/LoggerUtils.ts:90-92 | lists each explicitly enabled level once |
| `LoggerUtils.LoggerUtils.GetConfig` | src/logger/LoggerUtils.ts:121-123 | the copy has the same sets and the same two switches as the current output configuration |
| `LoggerUtils.LoggerUtils.UpdateConfig` | src/logger/LoggerUtils.ts:125-127 | overwrites exactly the given fields of the output configuration |
| `LoggerUtils.LoggerUtils.ResetConfig` | src/logger/LoggerUtils.ts:129-137 | timestamp and console are back on and the sets are re-derived from the current flags and defaults |
| `LoggerUtils.LoggerUtils.SetDefaultDomain` | src/logger/LoggerUtils.ts:140-142 | only the default domain changes; the filter follows at the next reset |
| `LoggerUtils.LoggerUtils.SetDefaultLevel` | src/logger/LoggerUtils.ts:144-146 | only the default level changes; the filter follows at the next reset |
| `LoggerUtils.LoggerUtils.GetDefaultDomain` | src/logger/LoggerUtils.ts:148-150 | the configured default domain |
| `LoggerUtils.LoggerUtils.GetDefaultLevel` | src/logger/LoggerUtils.ts:152-154 | the configured default level |
| `Logger.ChannelsDistinct` | src/logger/Logger.ts:55-67 | each level goes to its own console channel |
| `Logger.ChannelFor` | src/logger/Logger.ts:55-70 | error, warning, info and debug go to `console.error`, `warn`, `info` and `debug`, each channel receiving exactly its level |
| `Logger.UpperCase` | src/logger/Logger.ts:35 | on ASCII text, `toUpperCase` keeps the length, maps each lowercase letter to its capital, leaves no lowercase letter and keeps all other characters |
| `Logger.LevelTags` | src/logger/Logger.ts:35 | the tags are ERROR, WARNING, INFO and DEBUG |
| `Logger.FormatMessage` | src/logger/Logger.ts:27-44 | the line is exactly as long as its parts: `[timestamp] ` when timestamps are on, the bracketed level tag and domain with their separators, the message, and ` \| Data: json` when data is defined; nothing is truncated |
| `Logger.TimestampOnlyPrefixes` | src/logger/Logger.ts:31-33 | with timestamps on, the line is the bracketed timestamp and a space followed by the line without it |
| `Logger.DataOnlyAppends` | src/logger/Logger.ts:39-41 | defined data appends exactly ` \| Data: json`; without data the line ends with the message |
| `Logger.LineOpensWithLevelAndDomain` | src/logger/Logger.ts:35-37 | without a timestamp the line opens with `[LEVEL] [domain] ` |
| `Logger.LevelsTellLinesApart` | src/logger/Logger.ts:31-37 | with or without timestamps, entries of different levels never format to the same line, for timestamps without `]` as `toISOString` writes them |
| `Logger.TimestampedOpening` | src/logger/Logger.ts:31-35 | with the timestamp on, the first `]` of the line closes the timestamp and the level tag starts three characters later |
| `Logger.Logger.constructor` | src/logger/Logger.ts:8-11 | the given utils are shared; without them the logger gets a fresh default filter that passes every level in every domain with the console on |
| `Logger.Logger.CreateLogEntry` | src/logger/Logger.ts:13-21 | an entry carries the logger's current domain and the given level, message and data |
| `Logger.Logger.ShouldLog` | src/logger/Logger.ts:23-25 | the logger passes a level exactly when its filter admits it for the logger's current domain, which must be enabled |
| `Logger.Logger.Emitted` | src/logger/Logger.ts:73-80 | something is written exactly when the filter passes the level for the domain and the console is on, on the level's channel, as the formatted entry |
| `Logger.Logger.Output` | src/logger/Logger.ts:46-71 | nothing while the console is off; otherwise the formatted line on the level's channel |
| `Logger.Logger.Log` | src/logger/Logger.ts:73-80 | writes exactly `Emitted`; nothing for a filtered level |
| `Logger.Logger.LogError` | src/logger/Logger.ts:83-85 | `error` logs at level error |
| `Logger.Logger.LogWarning` | src/logger/Logger.ts:87-89 | `warning` logs at level warning |
| `Logger.Logger.LogInfo` | src/logger/Logger.ts:91-93 | `info` logs at level info |
| `Logger.Logger.LogDebug` | src/logger/Logger.ts:95-97 | `debug` logs at level debug |
| `Logger.Logger.SetDomain` | src/logger/Logger.ts:108-110 | later entries carry the new domain; the utils are kept |
| `Logger.Logger.GetDomain` | src/logger/Logger.ts:100-102 | the current domain, the one new entries carry |
| `Logger.Logger.GetUtils` | src/logger/Logger.ts:104-106 | the filter object itself, shared with whoever passed it in |

## Left out

- DOM and canvas plumbing is not modelled: event listener registration, `getBoundingClientRect` (its offsets are parameters), every `ctx` drawing call, the FPS text and the background fill. It is I/O.
- src/game.ts and src/main.ts are not part of this model. They hold the animation-frame loop, the system ordering and the page wiring.
- The ECS library's world, its entity allocator and its queries are not visible. Queries are parameters: snapshots of distinct ids holding the queried components. `createEntity`'s own trigonometric placement and its six random draws are left out, because `createRandomEntity` overwrites every column it writes. The `getDraggableEntities`, `getHoveredEntities` and `getDraggingEntities` queries, and the Hover and Dragging components, are modelled as the `World` sets.
- `Math.sqrt` and floating point are not modelled. Arithmetic is over exact reals, and distances are compared squared, which is equivalent because both sides are non-negative.
- `Math.random()` is not modelled as a source. Each draw is a parameter in [0, 1).
- The log calls inside the ECS systems are not modelled. Their only effect is console output.
- The `state` field and the missing `selected` field of the `InputParams` type in src/ecs/types.ts are not modelled. The mouse record is modelled as the systems use it: coordinates, `isDown` as a boolean for the 0/1 flag, and `selected`.
- src/logger/demo.ts and src/logger/index.ts are not part of this model. The demo's printed expectations disagree with the filter's code, and the model follows the code. `createLogger` only calls the constructor.
- `Entities.CreateRandomEntities`: a non-integer `count` is not modelled; the loop `i < count` would run ceil(count) times. It also requires a sample for each entity: `count <= |samples|`.
- `Render.ColorStringRoundTrip`: negative or fractional colours are not modelled. The colour is a `nat`, as `randomColor` produces.
- `MouseCapture.ScreenToWorld`: requires non-zero scales. A zero scale gives an infinite or NaN world position in the source.
- `LoggerUtils.Merged`: an option key present with the value `undefined` is modelled as absent. In the source the spread would overwrite the default with `undefined`.
- `LoggerUtils.LoggerUtils.GetConfig`: the shallow copy shares the two sets with the filter. Aliasing through the returned sets is not modelled, and `getEnabledDomains`/`getEnabledLevels` give no insertion order.
- `LoggerUtils.LoggerUtils.UpdateConfig`: `Object.assign` stores the caller's `Set` objects by reference, so later changes to them reach the filter. The model copies the set values, so that aliasing is not modelled. A key given with the value `undefined` is modelled as absent and keeps the old field. `Object.assign` copies it, so `updateConfig({ enableConsole: undefined })` turns console output off in the source.
- `MouseCapture.MouseCaptureSystem.GetMouse`: the source returns the live mouse object, which the event handlers keep updating in place. The model returns the record's current value, so a caller that holds on to it does not see later updates. The per-frame systems re-read the mouse each frame.
- `Logger.LevelsTellLinesApart`: requires both timestamps to hold no `]`. The timestamp is the caller's string, standing for `new Date().toISOString()`, which writes only digits, `-`, `:`, `.`, `T` and `Z`. A timestamp holding `]` is never produced by the source.
- `Entities.ShiftLeftIsMul`: JavaScript's `<<`, `>>`, `|` and `&` work on 32-bit signed integers and take the shift count mod 32, so `256 << 24` is 0 and `1 << 31` is negative. The model's bit operations are on unbounded naturals. The colours `randomColor` builds stay below 2^24, where the two agree.
- `Logger.UpperCase`: JavaScript's `toUpperCase` is Unicode-aware ('ß' becomes "SS", 'é' becomes 'É'). The model maps only ASCII letters; the level names it is applied to are ASCII.
- `Logger.Logger.Emitted`: the timestamp and the JSON text are strings supplied by the caller. `toISOString` and `JSON.stringify` are not modelled, including `JSON.stringify` returning `undefined` for values it cannot serialise.
