# Paddle game step and sprite frame animator, modelled in Dafny

This project models two small single-threaded state machines from an
introductory game-programming codebase:

- **PaddleGame** (`paddle_game.dfy`, from `Chapter01/Game.cpp`): the
  simulation step of a two-paddle ball game. The class `Game` holds the
  running flag, the tick count, the two paddles and the balls. `ProcessInput`
  maps a quit event, Escape and the W/S/R/F keys to the running flag and the
  paddle directions. `UpdateGame` turns the elapsed ticks into a delta time
  capped at 0.05 s, moves and clamps the paddles, then moves every ball, flips
  its velocity off the paddles and walls, and stops the game when a ball leaves
  the field. The per-ball loop body is the method `BallStep`. Each ball's new
  state is proved equal to the declarative `StepBall`: vx is negated exactly
  when the moved ball is in a paddle's band, vy exactly when it moves into a
  wall. `Game.Valid` says both paddles stay in [65, 703] with a direction in
  {-1, 0, 1}; every method keeps it.
- **AnimSprite** (`anim_sprite.dfy`, from `Chapter02/AnimSpriteComponent.cpp`
  and `.h`): a frame cursor that advances by `fps * dt`. The class `Animator<T>`
  holds the texture list (opaque handles), the frame range, the cursor, the
  rate and the two flags. Its only observable effect, `SetTexture`, is recorded
  as `displayed`, the index last displayed. There are three modes: one-shot
  (gated by `FrameInRange`); looping over a custom range (`frameEnd > 0`); and
  looping over the whole list. The two wrap loops are `RewindIntoRange` and
  `RewindIntoList`, proved against the recursive `WrapToRange` and `WrapToList`.
  Lemmas prove what those functions promise: bounds, that they rewind only by
  whole widths, and that the fractional part is kept.

Floats are modelled as `real`, so IEEE-754 rounding is not modelled.
`static_cast<int>` is written out as truncation toward zero (`Trunc`).
`size() - 1` on an empty `std::vector` wraps in size_t arithmetic; this is
written out in `Animator.LastIndex`.

Behaviour of the code that the model keeps as written:

- Holding both keys of a pair gives direction 0, because the two adjustments
  cancel.
- `SetAnimTextures` always displays index 0, even when the range starts
  elsewhere.
- The one-shot gate is `c < size - 1 && start <= trunc(c) <= end`: the last
  texture is excluded and frameEnd is included.
- A custom range is recognised by `frameEnd > 0`, so a range ending at 0 uses
  the whole-list branch.
- `Initialize` sets `paddle1`'s direction twice and never sets `paddle2`'s.
  `paddle2`'s direction is 0 from `Paddle{}` value-initialisation. (`Game.h` is
  not part of this model; this assumes `Paddle` has no other default.)
- The second ball starts at (384, 512), with the window's width and height
  swapped, as written.

## Model

| member | source | states |
|---|---|---|
| PaddleGame.Axis | Chapter01/Game.cpp:122-140 | A key pair gives a direction in {-1, 0, 1}. It is -1 iff only the up key is held and +1 iff only the down key is held. It is 0 iff both or neither are held. |
| PaddleGame.Game.ProcessInput | Chapter01/Game.cpp:98-141 | The running flag becomes old && !quit && !esc, so it is never set back to true. paddle1.dir = Axis(W, S) and paddle2.dir = Axis(R, F). Positions are unchanged and the paddle invariant is kept. |
| PaddleGame.DeltaTime | Chapter01/Game.cpp:149-157 | dt = min(elapsed ms / 1000, 0.05), so 0 <= dt <= 0.05. |
| PaddleGame.ClampToField | Chapter01/Game.cpp:296-304 | The result lies in [65, 703] and is the point of that interval nearest to the input. An input already inside is kept. |
| PaddleGame.UpdatePaddlePos | Chapter01/Game.cpp:290-306 | x and dir never change. With dir = 0 the paddle is unchanged. Otherwise y becomes the clamp of y + dir*300*dt, which lies in [65, 703]. |
| PaddleGame.PaddleMovesWithDirection | Chapter01/Game.cpp:290-306 | For dt >= 0, a paddle in the field stays in the field. A paddle moving down never goes up, and one moving up never goes down. |
| PaddleGame.MoveBall | Chapter01/Game.cpp:167-168 | The position advances by velocity*dt on both axes. The velocity is unchanged. |
| PaddleGame.StepBall | Chapter01/Game.cpp:166-216 | The ball moves. vx is negated exactly when the moved ball is in the left band or the right band (below). vy is negated exactly when (y <= 15 and vy < 0) or (y >= 753 and vy > 0). The speeds abs(vx) and abs(vy) are preserved. |
| PaddleGame.AtMostOneBouncePerAxis | Chapter01/Game.cpp:172-215 | No ball is in both paddle bands, and none moves into both walls. So there is at most one horizontal and one vertical flip per step. |
| PaddleGame.BounceTurnsAway | Chapter01/Game.cpp:175-215 | After a paddle or wall hit, the ball moves away from what it hit. A ball moving away from a wall keeps its vertical velocity. |
| PaddleGame.BallStep | Chapter01/Game.cpp:167-215 | The loop body, in the source's order with the right test seeing the possibly flipped vx, gives exactly StepBall. It reports off-screen iff the moved x <= 0 or x >= 1024. |
| PaddleGame.Game.constructor | Chapter01/Game.cpp:62-83 | Together with Game::Game: running, tick 0, paddles at (10, 384) and (999, 384) with direction 0, balls at (512, 384) and (384, 512) with velocity (-200, 235). The paddle invariant holds. |
| PaddleGame.Game.UpdateGame | Chapter01/Game.cpp:143-217 | Requires now >= ticks + 16 (the busy-wait). Sets ticks to now and updates both paddles with DeltaTime. Every ball becomes StepBall of itself against the updated paddles. Running stays true iff it was true and no ball is off screen afterwards; then every ball has 0 < x < 1024. The paddle invariant is kept. |
| AnimSprite.Trunc | Chapter02/AnimSpriteComponent.cpp:79 | Truncation toward zero: floor for non-negative values, ceiling for negative ones. |
| AnimSprite.WrapToRange | Chapter02/AnimSpriteComponent.cpp:38-44 | The range wrap ends with trunc(cursor) <= end. If any wrap happened, start <= cursor < end + 1. With start >= 0 and a non-negative cursor, the result is non-negative. |
| AnimSprite.WrapToRangeRewinds | Chapter02/AnimSpriteComponent.cpp:39-43 | The result is the cursor rewound k >= 0 times by end - start + 1, so its fractional part is kept. |
| AnimSprite.RangeIndexInBounds | Chapter02/AnimSpriteComponent.cpp:44 | With 0 <= start <= end < size and a non-negative cursor, the index displayed after the range wrap is valid. |
| AnimSprite.RewindIntoRange | Chapter02/AnimSpriteComponent.cpp:39-43 | The while loop terminates when it is not entered or start <= end. Its result is WrapToRange. |
| AnimSprite.WrapToList | Chapter02/AnimSpriteComponent.cpp:47-51 | The list wrap ends below size, and non-negative if the cursor was. A cursor already below size is kept. |
| AnimSprite.WrapToListRewinds | Chapter02/AnimSpriteComponent.cpp:47-50 | The result is the cursor rewound k >= 0 times by size, so its fractional part is kept. |
| AnimSprite.RewindIntoList | Chapter02/AnimSpriteComponent.cpp:47-50 | The while loop always terminates. Its result is WrapToList. |
| AnimSprite.WrapExamples | Chapter02/AnimSpriteComponent.cpp:38-51 | 4.2 over four textures wraps to 0.2. 4.5 over the range [1, 3] wraps to 1.5. |
| AnimSprite.Animator.constructor | Chapter02/AnimSpriteComponent.cpp:12-17 | The rate is 24 fps, the list is empty and nothing is displayed. Range, cursor and flags are the caller's values. |
| AnimSprite.Animator.LastIndex | Chapter02/AnimSpriteComponent.cpp:80 | `size() - 1` in 64-bit unsigned arithmetic: size - 1 for a non-empty list, the largest size_t for an empty one. |
| AnimSprite.Animator.FrameInRange | Chapter02/AnimSpriteComponent.cpp:78-83 | For a non-empty list, holds iff c < size - 1 and start <= trunc(c) <= end. When it holds and c >= 0, trunc(c) is an index before the last texture. It only reads state. |
| AnimSprite.Animator.SetAnimFPS | Chapter02/AnimSpriteComponent.h:21-22 | GetAnimFPS afterwards returns the value given. Only fps may change. |
| AnimSprite.Animator.SetAnimOneOff | Chapter02/AnimSpriteComponent.h:26 | Sets the one-shot flag and changes nothing else. |
| AnimSprite.Animator.SetAnimForward | Chapter02/AnimSpriteComponent.h:28 | Sets the direction flag and changes nothing else. |
| AnimSprite.Animator.SetAnimRange | Chapter02/AnimSpriteComponent.cpp:72-76 | Sets start, end and cursor = start. The list, rate, flags and display are untouched. |
| AnimSprite.Animator.SetAnimTextures | Chapter02/AnimSpriteComponent.cpp:57-70 | Always replaces the list. A non-empty list sets the cursor to start (0 if start < 0) and displays index 0. An empty list changes nothing else. |
| AnimSprite.Animator.Update | Chapter02/AnimSpriteComponent.cpp:19-55 | Changes only the cursor and the display. With no textures, nothing changes. One-shot out of range: frozen. One-shot in range: cursor + fps*dt, displaying its truncation. Looping: cursor = WrapToRange or WrapToList of cursor + fps*dt, displaying its truncation. Requires only what makes the range loop end: with start > end and the advanced cursor's frame past end, the width is not positive and the source loops forever. |
| AnimSprite.OneShotIndexInBounds | Chapter02/AnimSpriteComponent.cpp:25-31 | A one-shot step from a non-negative in-range cursor that advances at most one frame displays an existing texture. |
| AnimSprite.UpdateIgnoresForward | Chapter02/AnimSpriteComponent.cpp:19-55 | Two animators that differ only in the direction flag end an Update with the same cursor and display. |
| AnimSprite.OneShotScenario | Chapter02/AnimSpriteComponent.cpp:25-31 | Four textures, one-shot over [0, 3], one frame per update: the display goes 0, 1, 2, 3 and then stays on 3. |

The left band is abs(paddle1.y - y) <= 50, 20 <= x <= 25 and vx < 0; the right
band is abs(paddle2.y - y) <= 50, x >= 999 and vx >= 0.

## Left out

- SDL set-up and its failure returns, and `Shutdown` (Chapter01/Game.cpp:27-60, 283-288). These are foreign calls; the constructor models only a successful `Initialize`.
- `GenerateOutput`: it only makes draw calls to the renderer.
- Event polling and keyboard state: these are the boolean parameters of `ProcessInput`. Several pending events are summed up by one `quit` flag.
- The busy-wait on `SDL_GetTicks` and its repeated tick reads: one `now` argument with the precondition `now >= ticksCount + 16`.
- Tick counts are unbounded naturals: the 32-bit wrap of `SDL_GetTicks` is not modelled.
- `RunLoop` is left out because it never terminates.
- The balls are an array of values. That `balls` holds pointers to the members `ball1` and `ball2` (aliasing) is not modelled. Calling `Initialize` twice, which would push the same balls again, is not modelled.
- IEEE-754 rounding, and the sign of zero produced by negating a zero velocity.
- `SpriteComponent::Update` and the internals of `SetTexture` are not part of this model. `SetTexture` is only the update of `displayed`.
- Update: the index passed to `SetTexture` is recorded but not checked against the list, as in the source; the out-of-range vector read that follows is not modelled. It happens in these cases. One-shot: a step of more than one frame from near the end, or a cursor whose truncation is negative after the step (possible when frameStart < 0). Range loop: frameEnd >= size with the frame left between size and frameEnd, or a wrapped cursor <= -1. List loop: a cursor <= -1.
- The subtraction `1 + (end - start)` and the int fields are unbounded: 32-bit overflow is not modelled. `static_cast<int>` of a float outside the int range is undefined behaviour in C++; `Trunc` returns an unbounded int instead.
- `GetAnimFPS` is a plain read with no contract of its own. Its round trip is stated on `SetAnimFPS`.
