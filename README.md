# Marquee: a verified model of the frame loop and the feed connections

The marquee page turns two character feeds into falling discs. Each feed is
a WebSocket, one on the left and one on the right. Every character that
arrives joins its side's intake queue. Each animation frame does the
following in order:

1. It clamps the frame delta and steps the physics engine.
2. It pops at most three characters from each side, left first.
3. It fires one body per character. Firing evicts the oldest bodies while
   the list is at its cap of 200.
4. It culls the bodies that have left the screen.

Each feed connection reconnects after a close. It ignores events from
sockets it has replaced. A watchdog replaces a socket that has gone quiet.

This project models that core of `consumers/marquee/app.js` and proves what
it promises. It has five modules:

- `BodyList` (`bodies.dfy`) works on values. It defines the body list
  operations as functions: spawning a body, eviction when the list is full
  (`Fired`, `PushAll`) and culling (`Culled`, `Removed`). It also holds the
  lemmas about them:
  - the list stays within the cap;
  - eviction is first-in first-out and keeps order;
  - cull keeps exactly the on-screen bodies, in order, and is idempotent;
  - the engine world always holds exactly the identities of the list.
- `Intake` (`intake.dfy`) holds the per-side queues (`digitQueue`). They are
  a class with one `seq<char>` field per side. The connections push to them
  and the frame loop shifts from them.
- `Simulation` (`simulation.dfy`) holds the `Marquee` class. Its fields are
  `digitBodies`, the engine world (the identities of its bodies),
  `lastTime`, the canvas size and the shared queues. Its methods are the
  following:
  - `FireDigit` is the eviction `while` loop plus the append.
  - `Cull` is the backward walk with a splice.
  - `Draw` runs one frame. It steps the physics, runs the drain loop over
    both sides, then culls.

  Each method is proved against the functions of `BodyList`.
- `Feeds` (`connection.dfy`) holds the `Connection` class for
  `createConnection`. Its fields are the following:
  - every socket created, with its `readyState`; the newest is `conn.ws`;
  - the sockets whose `onclose`/`onerror` were cleared;
  - `conn.reconnectTimer` and the set of timers the host has pending;
  - `conn.lastData` and the status dot.

  Each handler is a method that the host's event loop calls. These are
  `connect`, `scheduleReconnect`, the timer callback, the four socket
  handlers and the liveness tick. `ConnectionClosed` is the browser task
  that runs the error and close handlers when a socket's connection ends.
- `Wrappers` (`wrappers.dfy`) holds the `Option` type that `lastTime` and
  `conn.reconnectTimer` share.

The model replaces the following inputs with parameters:

- `Date.now()` becomes `now`.
- `document.hidden` becomes `hidden`.
- The positions the physics step picks become `stepped`. They are
  arbitrary, and the step keeps each body's identity, character and colour.
- The uniform draws used for a spawn's height and colour become a `Roll`
  in [0, 1). A frame receives the left side's draws and the right side's
  draws as two sequences.

Some proof-structuring methods are split out of the source functions:

- `FireNext` is one iteration of `draw`'s spawn loop.
- `DrainSide` is that loop for one side.
- `SpawnFrame` is that loop for both sides.
- `CullFromBack` is the loop inside `cull`.
- `StepPhysics` is the engine step.

The frame loop has a fixed shape:

- Each side spawns exactly `min(length, 3)` characters per frame.
- Eviction always drops the oldest bodies.
- One physics step runs per frame, with the delta clamped to 16.6 ms.
- Cull runs after spawning.

## Model

| member | source | states |
|---|---|---|
| BodyList.ColorIndex | consumers/marquee/app.js:86 | the colour pick `floor(r * 16)` of a draw in [0, 1) is always a valid index into the 16-entry palette, namely the one whose slot contains the draw |
| BodyList.SpawnBody | consumers/marquee/app.js:66-76 | the new body carries the fresh identity and the character as its label, has a palette colour, and starts within 30 pixels of 40% of the height |
| BodyList.SpawnOnScreen | consumers/marquee/app.js:66-68 | a body spawned one radius outside its side's edge is never beyond the cull margin, so it survives the cull of its own frame |
| BodyList.Spawned | consumers/marquee/app.js:111 | one side's spawn loop: one body per popped character, in order, as many bodies as characters |
| BodyList.SpawnedAt | consumers/marquee/app.js:108-111 | the i-th body spawned for a side is the one for the i-th popped character, with the i-th draw and the i-th consecutive identity |
| BodyList.EvictCount | consumers/marquee/app.js:59-64 | the eviction loop drops nothing below the cap and otherwise exactly enough oldest bodies to leave `MAX_BODIES - 1` |
| BodyList.Fired | consumers/marquee/app.js:58-89 | after fireDigit the list is non-empty, holds at most `MAX_BODIES` bodies and grows by at most one |
| BodyList.FiredEvictsOldest | consumers/marquee/app.js:59-64 | the new body is last; the survivors are the newest old bodies in their old order, so only a prefix is evicted; below the cap nothing is evicted |
| BodyList.FiredIds | consumers/marquee/app.js:59-64 | with a fresh identity the list stays duplicate-free, and its identities become the old ones minus exactly the evicted prefix's plus the new one |
| BodyList.IdsSuffix | consumers/marquee/app.js:59-62 | dropping a prefix of a duplicate-free list removes exactly the prefix's identities |
| BodyList.IdsDropFirst | consumers/marquee/app.js:60-62 | one eviction step removes exactly the evicted body's identity from the remaining list's identities |
| BodyList.PushAll | consumers/marquee/app.js:108-111 | repeated fireDigit: each new body fired in turn, oldest first |
| BodyList.PushAllBound | consumers/marquee/app.js:58-89 | a run of fires grows the list by at most its length and, once anything has been fired, leaves it within `MAX_BODIES` |
| BodyList.PushAllWindow | consumers/marquee/app.js:58-89 | from a list within the cap, firing any number of bodies leaves exactly the newest `MAX_BODIES` of old-then-new, in order |
| BodyList.PushAllMembers | consumers/marquee/app.js:58-89 | firing bodies never invents one: every body after a run of spawns was on the list before or is one of the new ones |
| BodyList.PushAllConcat | consumers/marquee/app.js:108-112 | firing one batch and then another is firing their concatenation |
| BodyList.PushSpawnedSnoc | consumers/marquee/app.js:111 | firing one more popped character extends the run of fired bodies by that character's body |
| BodyList.OffScreen | consumers/marquee/app.js:94 | cull's test: below `H + 2R`, right of `W + 2R` or left of `-2R`; the top edge is not tested |
| BodyList.Culled | consumers/marquee/app.js:91-99 | the bodies cull keeps, in their original order, never more than the list held |
| BodyList.Removed | consumers/marquee/app.js:94-96 | the bodies cull removes from the list and the world, in their original order |
| BodyList.CulledMembers | consumers/marquee/app.js:91-99 | a body survives cull if and only if it was on the list and is not past the bottom, right or left margin; every body is either kept or removed |
| BodyList.CulledAppend | consumers/marquee/app.js:91-99 | cull works piecewise and keeps the survivors in their original order |
| BodyList.CulledOnScreen | consumers/marquee/app.js:91-99 | cull leaves a list with no off-screen body unchanged |
| BodyList.CulledIdempotent | consumers/marquee/app.js:91-99 | a second cull with unchanged positions removes nothing |
| BodyList.IdsCulled | consumers/marquee/app.js:94-96 | cull keeps identities distinct, and the identities left are the old ones minus exactly those of the removed bodies |
| BodyList.CulledIdsBelow | consumers/marquee/app.js:91-99 | cull introduces no identity |
| BodyList.CullStepAt | consumers/marquee/app.js:93-97 | at index i the walk removes the body when it is off screen and keeps it otherwise |
| BodyList.CullAfterPushKeepsNews | consumers/marquee/app.js:108-117 | spawning on-screen bodies into a list within the cap and then culling leaves them as the newest entries, in spawn order |
| Intake.Popped | consumers/marquee/app.js:109-111 | one frame takes exactly `min(length, MAX_PER_FRAME)` characters from a queue |
| Intake.Drain | consumers/marquee/app.js:109-111 | the queue shrinks by exactly that many, and what remains is the untouched suffix after the popped prefix |
| Intake.DigitQueue.constructor | consumers/marquee/app.js:32 | both queues start empty |
| Intake.DigitQueue.Push | consumers/marquee/app.js:196 | push appends to the given side only |
| Intake.DigitQueue.Shift | consumers/marquee/app.js:111 | shift returns the front of a non-empty side and removes it, leaving the other side alone |
| Simulation.FrameDelta | consumers/marquee/app.js:104 | the delta is at most 16.6, exactly 16.6 on the first frame, and otherwise the elapsed time or the cap, never more than the elapsed time |
| Simulation.Moved | consumers/marquee/app.js:106 | the physics step changes positions only: identities, characters and colours stay |
| Simulation.MovedIds | consumers/marquee/app.js:106 | the physics step keeps the list's identities and their distinctness |
| Simulation.FrameSpawned | consumers/marquee/app.js:108-112 | the bodies one frame spawns: the left side's popped characters, then the right side's, with consecutive identities, at most 3 per side |
| Simulation.FrameSpawnOrder | consumers/marquee/app.js:108-112 | spawning the left side's popped characters and then the right side's is spawning the frame's bodies left first, with consecutive identities |
| Simulation.FrameSpawnedOnScreen | consumers/marquee/app.js:108-112 | every body a frame spawns starts on screen |
| Simulation.FrameBodies | consumers/marquee/app.js:103-117 | the list one frame of draw leaves: the moved bodies, then the frame's spawns fired one by one, then culled |
| Simulation.FrameOnScreen | consumers/marquee/app.js:103-117 | after a frame every body is on screen and is either a moved old body or one spawned in that frame |
| Simulation.FrameKeepsSpawned | consumers/marquee/app.js:103-117 | a frame never loses a body it has just spawned: those are the newest bodies of the list, in spawn order |
| Simulation.Marquee.constructor | consumers/marquee/app.js:31 | the list and the world start empty and there is no previous frame time |
| Simulation.Marquee.Resize | consumers/marquee/app.js:45-47 | a resize replaces the width and height and keeps the list invariant |
| Simulation.Marquee.FireDigit | consumers/marquee/app.js:58-89 | the list becomes `Fired(old list, new body)`; the world loses exactly the evicted bodies and gains the new one; the list stays within the cap with distinct identities |
| Simulation.Marquee.Cull | consumers/marquee/app.js:91-99 | the list becomes `Culled(old list)` and the world loses exactly the removed bodies' identities, keeping the invariant |
| Simulation.Marquee.CullFromBack | consumers/marquee/app.js:92-98 | the backward walk with splice computes `Culled` and removes each culled body from the world |
| Simulation.Marquee.StepPhysics | consumers/marquee/app.js:106 | the list becomes the moved list and the invariant holds |
| Simulation.Marquee.FireNext | consumers/marquee/app.js:111 | one iteration shifts the front character of a side and fires it with the next identity |
| Simulation.Marquee.DrainSide | consumers/marquee/app.js:108-111 | a side's queue becomes `Drain(old)`, the other is untouched, and the list is the old one with the popped characters fired in queue order |
| Simulation.Marquee.SpawnFrame | consumers/marquee/app.js:108-112 | both queues are drained and the list is the old one with the frame's bodies fired, left side first |
| Simulation.Marquee.Draw | consumers/marquee/app.js:103-117 | the delta is `FrameDelta`, `lastTime` becomes now, both queues shrink by `min(length, 3)`, and the list is `FrameBodies`: moved, spawned, then culled, with the cap and the world kept |
| Feeds.Live | consumers/marquee/app.js:179 | connect()'s test that `conn.ws` is OPEN or CONNECTING |
| Feeds.Stale | consumers/marquee/app.js:214 | the watchdog's test: `lastData` is non-zero and more than 5000 ms old |
| Feeds.AfterClose | consumers/marquee/app.js:182 | `close()` leaves a socket closing or closed, and does nothing to one already closing or closed |
| Feeds.Reconnected | consumers/marquee/app.js:178-186 | connect() adds a connecting socket as `conn.ws`, leaves older sockets alone, and the previous one is no longer live |
| Feeds.ReconnectedOnlyNewestLive | consumers/marquee/app.js:178-186 | connect() keeps at most one live socket per connection |
| Feeds.Connection.constructor | consumers/marquee/app.js:151-162 | a connection starts disconnected, with no data, no timer and one connecting socket |
| Feeds.Connection.Connect | consumers/marquee/app.js:178-186 | a live `conn.ws` has its close and error handlers cleared and is closed; a closing or closed one is left alone; a new connecting socket becomes `conn.ws` |
| Feeds.Connection.ScheduleReconnect | consumers/marquee/app.js:170-176 | with a timer pending nothing changes; otherwise exactly one timer is armed, so there is never more than one |
| Feeds.Connection.ReconnectTimerFires | consumers/marquee/app.js:172-175 | the timer clears `conn.reconnectTimer`, leaving no timer pending, and then connects |
| Feeds.Connection.OnOpen | consumers/marquee/app.js:188-191 | only `conn.ws` can open; it becomes open, the status connected, and `lastData` now |
| Feeds.Connection.OnMessage | consumers/marquee/app.js:193-199 | while hidden the queue and `lastData` are untouched; otherwise the data is appended, in order, to this feed's side only, and `lastData` becomes now |
| Feeds.Connection.ConnectionClosed | consumers/marquee/app.js:201-210 | the socket becomes closed; then the error handler runs if the connection failed, then the close handler, with nothing in between; a cleared or replaced socket changes neither the status nor the timer nor `conn.ws`; `conn.ws` sets disconnected and schedules a reconnect, keeping a pending timer |
| Feeds.Connection.OnClose | consumers/marquee/app.js:201-205 | a close from a cleared or replaced socket changes neither the status nor the timer; from `conn.ws` it sets disconnected and schedules a reconnect, keeping a pending timer |
| Feeds.Connection.OnError | consumers/marquee/app.js:207-210 | an error from a cleared or replaced socket is ignored; on `conn.ws` the `close()` call finds the socket already closed and changes nothing |
| Feeds.Connection.LivenessTick | consumers/marquee/app.js:213-218 | with `lastData` zero or fresh (5000 ms or less) nothing changes; otherwise `lastData` becomes 0 and the connection reconnects, clearing the handlers of a still-live old socket and closing it |

## Left out

- Matter.js physics is not modelled: `Engine.update`, gravity, collisions, sleeping and the body's material constants. It is a foreign library with floating-point dynamics. The step is an arbitrary new position per body (`stepped`).
- The launch velocity (`speed`, `angle`, `cos`, `sin` at app.js:78-84) is not modelled. It only feeds the physics.
- The spawn's random draws are parameters. The height and colour draws of each spawn are a `Roll`. The source draws from one random stream interleaved with the velocity draws; the model takes the left side's draws and the right side's as two sequences.
- Canvas drawing, the font, `refreshTheme`, `requestAnimationFrame` and the canvas resize are presentation. They are not modelled; only the width and height that cull reads are kept.
- The status dot's DOM element, its text and the stream URL are not modelled. Only the connected/disconnected status is.
- WebSocket I/O is not modelled. The host calls the socket event methods. Their preconditions follow the WHATWG WebSockets Standard: open only while connecting, and messages only while open. When a connection closes, one task sets readyState to CLOSED, fires error if the connection failed, then fires close (`ConnectionClosed`).
- Feeds.Connection.ReconnectTimerFires: does not model the 2000 ms delay, and LivenessTick does not model the 2000 ms watchdog period, because timer scheduling belongs to the host.
- Feeds.Connection.OnMessage: iterates the data as Dafny characters (Unicode scalar values). A JavaScript string iterates by code point, and a lone surrogate is not modelled.
- The truthiness test `if (old)` in the eviction loop is not modelled. A shift from a list of at least 200 bodies always yields a body.
- `setTimeout` handles are modelled as a counter of positive numbers. A positive handle is what makes `if (conn.reconnectTimer)` a pending-timer test.
- device/server.py, the test files and playwright.config.js are not part of this model. They cover the feed server, test harnesses and configuration.
