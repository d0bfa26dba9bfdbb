# Unicorn Madness: player and star simulation in Dafny

This project models the per-frame simulation of the Unicorn Madness browser game (`js/app.js`).

The player is a 100 by 100 unicorn. Gravity (0.5 per frame) pulls it down, and it stands on an implicit ground line at the bottom of the canvas. It can jump when it is not already jumping: the jump starts it upwards at 15 per frame. It moves left or right by 5 per key press. The game loop is meant to update the player once per frame. The background stars blink: each star's opacity moves by `blinkSpeed` per frame in its current direction, stops at 0 or at 1, and turns back there.

Two modules follow the two classes of the source:

- `Players` (`players.dfy`) has these parts:
  - `PlayerState`, a value holding every field of the player.
  - The functions `Initial`, `Updated`, `Jumped`, `MovedLeft`, `MovedRight` and `AfterFrames`. They give the player's state after the constructor, after one call of each method, and after `n` frames.
  - Lemmas about those functions.
  - A class `Player`, whose methods update its fields in place. Each method's `ensures` ties the new fields to the matching function.
  - `GameLoop`, which runs `n` frames.
- `Stars` (`stars.dfy`) has the same layout for a star: `StarState`, `Blinked`, `AfterBlinks`, lemmas, and a class `Star`.

Arithmetic:

- The canvas height is an integer that the player receives when it is created. It does not change afterwards.
- `x`, `width`, `height`, `speed` and `velocityX` are integers.
- `y`, `velocityY` and a star's opacity are `real`s. The player's vertical quantities are always multiples of 0.5, so the game's floating-point numbers hold them exactly.

Jumping is gated by the boolean `jumping`; there is no double jump and no jump counter. Horizontal moves are not clamped to the canvas.

As written, the whole file fails to parse, so nothing in it runs: no player is created, no key listener is registered and `gameLoop` is never called. The cause is the `Star` class. Its `draw` and `update` methods stand at the top level after the class's closing brace (js/app.js:95-117). A call followed by `{` there is a syntax error, and so is the stray `}` at js/app.js:117. The constructor also reads an undefined `blinkSpeed` where its parameter is named `starBlink` (js/app.js:85, 89). The model follows the evident intent for both classes: `Player` as written, `update` as a method of `Star`, and `blinkSpeed` as a constructor argument.

## Model

| member | source | states |
|---|---|---|
| `Players.Initial` | js/app.js:18-34 | a new player stands on the ground line (`y + height == H`), at rest (`velocityY == 0`), not jumping, at x 100, 100 by 100, with speed and horizontal velocity 5 |
| `Players.Updated` | js/app.js:42-55 | after a frame the bottom edge is never below the ground line; if the fall would cross it, the player is on the ground line with velocity 0 and `jumping` cleared; otherwise `y` moves by the old velocity, gravity 0.5 is added to the velocity and `jumping` is kept; `x`, size, speed and `velocityX` never change, and `jumping` is never set |
| `Players.Jumped` | js/app.js:61-67 | afterwards the player is jumping; a player already jumping is unchanged; otherwise the vertical velocity becomes -15 and nothing else changes |
| `Players.MovedLeft` | js/app.js:70-72 | only `x` changes, and it decreases by exactly `speed`, with no bound |
| `Players.MovedRight` | js/app.js:75-77 | only `x` changes, and it increases by exactly `speed`, with no bound |
| `Players.AfterFrames` | js/app.js:120-132 | after one or more frames of the game loop the player is not below the ground line; no frame changes `x`, size, speed or `velocityX`, and none starts a jump |
| `Players.FramesCompose` | js/app.js:128-131 | `a` frames followed by `b` frames are `a + b` frames |
| `Players.ReachableIsInvariant` | js/app.js:42-77 | update, jump and both moves keep the player above the ground line, and keep a player that is not jumping standing on the ground line with velocity 0 or 0.5 |
| `Players.JumpIdempotent` | js/app.js:61-67 | jumping twice is the same as jumping once |
| `Players.MovesAreInverse` | js/app.js:70-77 | a move left and a move right undo each other, in either order |
| `Players.RestingAlternates` | js/app.js:44-54 | a player at rest on the ground stays on the ground line for any number of frames, its velocity alternating 0, 0.5, 0, ... and never jumping |
| `Players.JumpFlight` | js/app.js:44-67 | for frames 0 to 61 after a jump off the ground, the player is at height `k(61 - k)/4` above the ground line with velocity `-15 + k/2`, still jumping |
| `Players.JumpLands` | js/app.js:44-67 | a jump off the ground keeps the player in the air (jumping) for frames 1 to 61 and puts it back on the ground, at rest and free to jump, on frame 62 |
| `Players.StaysDownAfterLanding` | js/app.js:44-67 | from frame 62 after a jump on, the player is on the ground line and not jumping |
| `Players.JumpPeak` | js/app.js:44-67 | no frame after a jump takes the player more than 232.5 above the ground line; frames 30 and 31 reach that height |
| `Players.Player.constructor` | js/app.js:18-34 | the new player's fields are `Initial(H)` and the player invariant holds |
| `Players.Player.Update` | js/app.js:42-58 | the fields after the call are `Updated` of the fields before it; the invariant is kept |
| `Players.Player.Jump` | js/app.js:61-67 | the fields after the call are `Jumped` of the fields before it; the invariant is kept |
| `Players.Player.MoveLeft` | js/app.js:70-72 | the fields after the call are `MovedLeft` of the fields before it; the invariant is kept |
| `Players.Player.MoveRight` | js/app.js:75-77 | the fields after the call are `MovedRight` of the fields before it; the invariant is kept |
| `Players.GameLoop` | js/app.js:120-132 | `n` frames of the loop leave the player at `AfterFrames` of where it started, keeping the invariant |
| `Stars.Blinked` | js/app.js:106-114 | after a frame the opacity is in [0, 1]; if the step reaches 1 or more, the opacity is 1 and the direction -1; if it reaches 0 or less, the opacity is 0 and the direction +1; otherwise the opacity moves by `blinking * blinkSpeed` and the direction is kept; at a bound the direction points back into the range; a direction of +1 or -1 stays one; nothing else changes |
| `Stars.AfterBlinks` | js/app.js:106-114 | after any number of frames the opacity stays in [0, 1] and the direction stays +1 or -1; position, size and speed never change |
| `Stars.BlinksCompose` | js/app.js:106-114 | `a` frames followed by `b` frames are `a + b` frames |
| `Stars.Twinkles` | js/app.js:106-114 | a star with positive speed, pointing into its range, changes opacity on every frame |
| `Stars.Brightens` | js/app.js:106-110 | a brightening star gains exactly `blinkSpeed` per frame while it stays below 1: after `k` frames its opacity is the start opacity plus `k * blinkSpeed` |
| `Stars.Dims` | js/app.js:106-114 | a dimming star loses exactly `blinkSpeed` per frame while it stays above 0: after `k` frames its opacity is the start opacity minus `k * blinkSpeed` |
| `Stars.BrightensLinearly` | js/app.js:106-110 | while the start opacity plus `k * blinkSpeed` stays below 1, that sum is the opacity after `k` frames, and nothing else changes |
| `Stars.DimsLinearly` | js/app.js:106-114 | while the start opacity minus `k * blinkSpeed` stays above 0, that difference is the opacity after `k` frames, and nothing else changes |
| `Stars.BlinkCycle` | js/app.js:106-114 | a star at opacity 0 whose speed is `1/m` reaches full opacity and turns after `m` frames, and is back in its starting state after `2m` frames |
| `Stars.Star.constructor` | js/app.js:85-92 | the star's fields are the given position, size, speed, start opacity in [0, 1) and direction of +1 or -1 |
| `Stars.Star.Update` | js/app.js:106-116 | the fields after the call are `Blinked` of the fields before it; opacity in [0, 1] and direction in {+1, -1} are kept |

## Left out

- Canvas and context setup, and sizing from the window (js/app.js:1-7): this is browser I/O. The canvas height is a parameter of the player.
- The unicorn image and every `draw` method (js/app.js:14-15, 37-39, 98-103), including the `draw` calls at the end of each `update`: they render and change no state.
- `clearRect` and `requestAnimationFrame` in `gameLoop`: the loop is modelled as `n` updates of the player.
- `createStarrySky` (js/app.js:125): the file calls it but never defines it, so no code creates or updates stars, and `Star.update` is modelled on its own. The call comes before `player.update()` (js/app.js:128) and `requestAnimationFrame` (js/app.js:131) in `gameLoop`, so even with the `Star` class repaired it throws a ReferenceError and the first frame stops before the player is updated. The model treats the call as returning without effect: `GameLoop` and `AfterFrames` model the intended loop, in which every frame updates the player.
- The keyboard listener (js/app.js:135-145): it only maps Space, ArrowLeft and ArrowRight to `jump`, `moveLeft` and `moveRight`.
- `Math.random` for a star's start opacity and direction (js/app.js:90-91): these are constructor inputs. The constructor requires an opacity in [0, 1) and a direction of +1 or -1.
- Floating point: opacity steps are exact `real`s. Doubles would round a speed such as 1/3, so `Stars.BlinkCycle` holds exactly only for the reals of the model.
- Double-precision limits for the player: the player's coordinates are unbounded numbers. Far outside the range of 2^53, doubles would stop being exact.
