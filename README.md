# Uncuff attempts, cloning records and window tools — a Dafny model

This project models three pieces of server-side game logic of a Unity space-station game:

- **The uncuff attempt of `RestraintOverlay`.** A cuffed player asks to remove the cuffs. The component cancels the previous attempt's token and caches the player's overall health and tile position. If the player can uncuff, it starts a countdown that runs once per frame. Each frame the countdown first checks its token and then adds the frame time. It then re-checks that the player is still conscious, with overall health unchanged, not slipping and on the same tile. It completes once the time strictly exceeds the restraint's resist time: Uncuff is called once, a chat message is sent and a sound plays.
  - `uncuff.dfy` (module `Uncuff`) holds this as values: `CanUncuff`, one loop iteration `Tick`, a run over many frames `RunFrames`, and the lemmas about runs.
  - `restraint_overlay.dfy` (module `Restraint`) holds it as objects. `RestraintOverlay` owns the shared cache fields, `cancelSource` and `isUnCuffing`, plus a log of engine calls. `UncuffCountdown` replaces the coroutine, and its `Step(live, dt)` is one resumption. `CancellationTokenSource` is shared by reference between the component and the countdown.
- **The cloning console's record registry** (`cloning_console.dfy`, module `Cloning`). `Scan` updates in place the first record with the occupant's mob id, or appends a new one. `TryClone` removes a record when the pod and the mind agree. `ToggleLock` flips the scanner's lock. The specification functions `FirstMatch` and `Scanned` work on the records' identity fields. `IndexOf` and `RemoveFirst` work on the record objects, by reference, as `List.Remove` does.
- **The window's tool decision table** (`window_object.dfy`, module `Window`). `ServerPerformInteraction` is a function from the interaction's facts to an outcome: nothing, an examine message, or a 4-second tool action with its effect kind.

`wrappers.dfy` holds the `Option` type that stands for nullable references.

How the code behaves, which the model follows:
- Completion needs strictly `waitTime > resistTime` (RestraintOverlay.cs:112).
- The frame time is added before the invalidation check (lines 103 and 105).
- A cancelled countdown neither interrupts its progress bar nor changes `isUnCuffing` (lines 100-102).
- Any resist time is accepted.
- The health and position snapshot lives in the component's fields (lines 18-19), which every new attempt overwrites.
- Unity runs a new coroutine up to its first `yield` at once. So `ServerBeginUnCuffAttempt` runs the first loop iteration itself, with that frame's delta, before it sends the start message (lines 81-83).

A consequence the model makes visible: a cancelled countdown leaves `isUnCuffing` as it was. So if a running attempt is preempted by a request that is not eligible, the flag stays `true` while no countdown runs. The client method `Restraint.StaleFlagExample` derives this from the contracts.

## Model

| member | source | states |
|---|---|---|
| `Uncuff.CanUncuff` | UnityProject/Assets/Scripts/Clothing/RestraintOverlay.cs:126-141 | uncuffing is refused exactly when the health component is missing, the player is dead or unconscious, overall health differs from the cache, the player is slipping, or the position differs from the cache |
| `Uncuff.CanUncuffAtCapture` | UnityProject/Assets/Scripts/Clothing/RestraintOverlay.cs:76-78 | right after the snapshot is cached the health and position comparisons pass, so eligibility reduces to "conscious and not slipping" |
| `Uncuff.Tick` | UnityProject/Assets/Scripts/Clothing/RestraintOverlay.cs:100-123 | one loop iteration: terminal states absorb. Cancellation is seen first and is silent: time and `isUnCuffing` are kept, nothing is emitted. Otherwise the delta is added exactly once. An invalid frame always interrupts, never completes, and clears the flag. Completion clears the flag too. A clean frame completes exactly when the total strictly exceeds the resist time, emitting Uncuff, the success message and the sound; otherwise it stays Running. Interrupted comes only from an invalid frame, Cancelled only from a cancelled one. Uncuff is emitted exactly on the transition to Completed. A countdown still running has the flag set. |
| `Uncuff.RunFrames` | UnityProject/Assets/Scripts/Clothing/RestraintOverlay.cs:86-124 | across any frames, waitTime never decreases and resistTime is fixed; a terminal countdown stays as it is and emits nothing; a countdown still running has counted every frame's time; a run that ends Completed or Interrupted leaves the flag cleared |
| `Uncuff.RunFramesAppend` | UnityProject/Assets/Scripts/Clothing/RestraintOverlay.cs:100-123 | running two batches of frames one after the other equals running them together, effects concatenated |
| `Uncuff.UncuffedExactlyOnceIfCompleted` | UnityProject/Assets/Scripts/Clothing/RestraintOverlay.cs:112-122 | over any run, Uncuff occurs once if the countdown ends Completed and never otherwise |
| `Uncuff.CompletesIff` | UnityProject/Assets/Scripts/Clothing/RestraintOverlay.cs:100-123 | a running countdown completes if and only if, for some n, the first n frames are all uncancelled and valid and their time exceeds the resist time |
| `Uncuff.InterruptedAtFirstInvalidFrame` | UnityProject/Assets/Scripts/Clothing/RestraintOverlay.cs:103-110 | the first invalid frame ends the countdown as Interrupted at that frame. Time is frozen at that frame's total, the flag is cleared, and Uncuff never occurs. |
| `Uncuff.CancelledAtLoopHead` | UnityProject/Assets/Scripts/Clothing/RestraintOverlay.cs:100-102 | a cancellation seen at a loop head ends the countdown as Cancelled there. Time, flag and effects stay as they were before that frame. |
| `Restraint.RestraintOverlay.constructor` | UnityProject/Assets/Scripts/Clothing/RestraintOverlay.cs:17-29 | a fresh component has no token source, no log and is not uncuffing |
| `Restraint.RestraintOverlay.AtMostOneLiveToken` | UnityProject/Assets/Scripts/Clothing/RestraintOverlay.cs:71-81 | among all token sources a component ever created, at most one is uncancelled, and it is the one in `cancelSource` |
| `Restraint.RestraintOverlay.ServerBeginUnCuffAttempt` | UnityProject/Assets/Scripts/Clothing/RestraintOverlay.cs:69-84 | the previous token is always cancelled. A missing health component stops before the caches are written. Otherwise the caches are overwritten. Only an eligible player gets a new token and countdown. The first iteration then runs, and the log is progress start, that iteration's effects, start message. An ineligible request installs no new token source and changes no flag or log. |
| `Restraint.UncuffCountdown.constructor` | UnityProject/Assets/Scripts/Clothing/RestraintOverlay.cs:86-98 | the coroutine starts with no time accumulated, Running, after creating the progress bar for the resist time |
| `Restraint.UncuffCountdown.Step` | UnityProject/Assets/Scripts/Clothing/RestraintOverlay.cs:100-123 | one resumption is exactly `Tick`, with the token's current state and `CanUncuff` against the component's current cache; the component's flag and log follow |
| `Cloning.FirstMatch` | UnityProject/Assets/Scripts/Medical/CloningConsole.cs:36-44 | finds the first record with the mob id, or reports that none has it |
| `Cloning.Scanned` | UnityProject/Assets/Scripts/Medical/CloningConsole.cs:25-47 | a mob whose mind belongs to another body changes nothing. Otherwise the mob's record is present afterwards. Records of other mobs keep their place and contents. The list grows by exactly one iff the mob had no record. |
| `Cloning.ScanKeepsMobIDsDistinct` | UnityProject/Assets/Scripts/Medical/CloningConsole.cs:36-45 | scanning keeps mob ids pairwise distinct, and the scanned mob's only record then holds its fresh data |
| `Cloning.ScanIdempotent` | UnityProject/Assets/Scripts/Medical/CloningConsole.cs:36-45 | scanning the same occupant twice gives the same records as scanning once |
| `Cloning.IndexOf` | UnityProject/Assets/Scripts/Medical/CloningConsole.cs:56 | the position of the first occurrence of the record, absent exactly when the list does not hold it |
| `Cloning.RemoveFirst` | UnityProject/Assets/Scripts/Medical/CloningConsole.cs:56 | removing a held record drops exactly its first occurrence and keeps the others in order (so the list shortens by one and loses one copy from its multiset); removing an absent one changes nothing |
| `Cloning.CloningRecord.constructor` | UnityProject/Assets/Scripts/Medical/CloningConsole.cs:83-86 | a new record has blank identity fields |
| `Cloning.CloningRecord.UpdateRecord` | UnityProject/Assets/Scripts/Medical/CloningConsole.cs:88-92 | the record's mob id, mind and name become the scanned mob's |
| `Cloning.CloningConsole.constructor` | UnityProject/Assets/Scripts/Medical/CloningConsole.cs:13-15 | the console starts with no records and satisfies the distinct-id invariant |
| `Cloning.CloningConsole.ToggleLock` | UnityProject/Assets/Scripts/Medical/CloningConsole.cs:17-23 | the lock flips when the scanner exists and is closed, otherwise stays; nothing else about the scanner changes |
| `Cloning.CloningConsole.ToggleLockTwice` | UnityProject/Assets/Scripts/Medical/CloningConsole.cs:17-23 | two toggles restore the lock |
| `Cloning.CloningConsole.Scan` | UnityProject/Assets/Scripts/Medical/CloningConsole.cs:25-47 | without scanner or occupant nothing changes; otherwise the records' contents become `Scanned` of the old ones (in-place update of the first match, or append); no record object is dropped; distinct mob ids are kept |
| `Cloning.CloningConsole.CreateRecord` | UnityProject/Assets/Scripts/Medical/CloningConsole.cs:61-66 | appends one fresh record holding the mob's identity fields; earlier records are untouched |
| `Cloning.CloningConsole.TryClone` | UnityProject/Assets/Scripts/Medical/CloningConsole.cs:49-59 | cloning starts iff the pod exists, can clone and the mind confirms. Then the first occurrence of the record is removed, and no copy of it remains. Otherwise the list is unchanged. Distinct mob ids are kept. |
| `Window.ServerPerformInteraction` | UnityProject/Assets/Scripts/Objects/Construction/WindowObject.cs:50-106 | another target gives nothing. Each outcome holds exactly under its own conditions. Secure: screwdriver, unanchored, floor, anchoring free. Unsecure: screwdriver, anchored. Disassemble into 4 sheets: wrench without screwdriver, unanchored. "Floor must be present": screwdriver over space. "Unsecure it first": wrench on an anchored window. Every tool action lasts 4 seconds. |
| `Window.WillInteract` | UnityProject/Assets/Scripts/Objects/Construction/WindowObject.cs:37-48 | accepts only when the default checks pass; past them, it accepts exactly the interactions the server answers on an anchored window (this window targeted, a wrench or screwdriver in hand), and every accepted interaction gets an answer on any window unless anchoring is blocked |
| `Window.PerformOnlyIfWillInteract` | UnityProject/Assets/Scripts/Objects/Construction/WindowObject.cs:37-52 | the server produces an outcome only for interactions the interaction check accepts (target is the window, hand holds a wrench or screwdriver) |
| `Window.ScrewdriverTakesPrecedence` | UnityProject/Assets/Scripts/Objects/Construction/WindowObject.cs:55-89 | an item with both traits acts exactly as a screwdriver; disassembly never results from it |
| `Window.AnchorBlockedDoesNothing` | UnityProject/Assets/Scripts/Objects/Construction/WindowObject.cs:66-75 | with a screwdriver on an unanchored window over floor, a blocked anchor makes the window start no action and send no message of its own (what the anchor check itself reports is not modelled) |

## Left out

- Sprites, alert UI and the client action (`SetReference`, `UpdateSprite`, `DetermineAlertUI`, `CallActionClient`): rendering and client calls.
- Chat text, the sound and the progress bar are abstract events in a log; their content and formatting are not modelled.
- Unity's coroutine scheduling is the caller invoking `Step` once per frame. `Time.deltaTime`, overall health and the resist time are integers, not floats.
- The handcuff lookup in the player's inventory is not modelled: the resist time is a parameter, so a missing handcuff item is not either.
- The live player state is a parameter of each call (`LiveState`). The conscious-state enum is reduced to Dead, Unconscious and "any other value".
- `PlayerHealth` being null at the start of an attempt throws in the source after the old token is cancelled. It is modelled as the `NoPlayerHealth` result, not as an exception.
- Cloning records keep only their identity fields (mob id, mind, name). Damage values, character settings, the random scan id and the fixed unique identifier are left out. So is the static change event.
- The cloning pod and mind calls (`CanClone`, `ConfirmClone`, `StartCloning`) are boolean inputs and the `cloning` result. Their side effects are not modelled.
- The record list is assumed to change only through `Scan` and `TryClone`. So distinct mob ids are the console's invariant and a precondition of both.
- A missing player script or mind on the scanned mob would throw in the source; the model assumes both exist.
- Window effects (`ScrewToFloor` tile updates, `Disassemble` spawning, `DisappearFromWorldServer`), the destruction spawn, the component lookup in `Start`, `OnSpawnServer` and networking: engine calls. Only the branching outcome is modelled.
- The default hand-apply check of `WillInteract` is a boolean input.
- `ServerValidations.IsAnchorBlocked` is a boolean input; whatever it reports to the performer itself is not modelled.
- Item traits are the two booleans of `HandItem`.
