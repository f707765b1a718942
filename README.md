# A verified model of a Pyxel Super Mario Bros level

This project models the game logic of a small Super Mario Bros clone written
for the Pyxel retro engine. Once per frame, the game updates:

- Mario;
- the camera and the parallax background;
- the enemies (Goombas and KoopaTroopas);
- the items (Mushrooms);
- the particles (score texts, coins, broken-block bursts and fireworks);
- the tiles (floors, pipes, breakable blocks, coin blocks, question blocks, stairs and the flag pieces).

The level holds these objects in lists. It deletes the ones that are finished and rebuilds itself from its level text when Mario loses a life.

The model follows the source file by file:

| Dafny module (file) | source file | form |
|---|---|---|
| `Sprites` (sprite.dfy) | sprite.py | the rectangle is a value; the property setters are functions |
| `Animations` (animation.dfy) | animation.py | class `Animation` over the value `AnimState` |
| `Entities` (entity.dfy) | entity.py | class `Entity` and the capped gravity step |
| `LevelTiles` (level_tiles.dfy) | level_tiles.py | class `Tile` (one class per family, tagged by `TileKind`) over `TileState` |
| `Collisions`, `TilePasses` | the `_check_*_collisions` loops | one step per tile, folded over the tile list |
| `Items` (items.dfy) | items.py | class `Item` (Item and Mushroom) over `ItemState` |
| `Particles` (particles.dfy) | particles.py | classes `Particle` and `Piece` over `ParticleState` and `PieceState` |
| `Enemies` (enemies.dfy) | enemies.py | class `Enemy` (Goomba and KoopaTroopa) over `EnemyState` |
| `Players` (mario.dfy) | mario.py | class `Mario` over `MarioState` |
| `LevelPasses`, `Levels` | level.py | classes `Camera`, `Background` and `Level` over `LevelState` |

Every class keeps the fields the source updates in place. Each method is
proved against a pure step function of the state's snapshot, for example:

- `Tile.Update` ensures `State() == TileStep(old(State()))`;
- `Level.Update` ensures `(State(), err) == LevelStep(old(State()), ...)`.

Lemmas then state what the source promises about those step functions, or
about runs of several frames.

The things outside the game logic are inputs:

- `tick` is Pyxel's `frame_count`.
- `Keys` is the snapshot of the pressed keys.
- `Draws` holds the random draws: the enemy kind, the firework velocity and the coin count of each coin block.

An exception the source raises is an `Err` value of type `PyError`.

## Model

| member | source | states |
|---|---|---|
| Sprites.Sprite.WithLeft | sprite.py:43-46 | the `left` setter puts the left edge at the given value and keeps y and the size |
| Sprites.Sprite.WithTop | sprite.py:52-55 | the `top` setter puts the top edge at the given value and keeps x and the size |
| Sprites.Sprite.WithRight | sprite.py:34-37 | the `right` setter puts the right edge at the given value and keeps y and the size |
| Sprites.Sprite.WithBottom | sprite.py:26-28 | the `bottom` setter puts the bottom edge at the given value and keeps x and the size |
| Sprites.Sprite.WithCenterX | sprite.py:65-68 | the `center_x` setter centres the rectangle on the given x and keeps y and the size |
| Sprites.IntersectsSymmetric | sprite.py:75-82 | `intersects` is symmetric |
| Sprites.IntersectsIffSharedPixel | sprite.py:75-82 | two non-empty rectangles intersect exactly when some pixel lies in both |
| Sprites.SharedEdgeIsNoOverlap | sprite.py:75-82 | rectangles that only touch along an edge do not intersect, which is why snapping an edge onto a tile resolves a collision |
| Animations.StepBehaviour | animation.py:45-52 | an update keeps the cursor inside the frame list; once more than `delay` frames have elapsed it advances the frame and restarts the clock, wrapping to 0 and setting `played_once` after the last frame |
| Animations.SettersBehaviour | animation.py:58-65 | `set_frames` restarts at frame 0 with a fresh clock and clears `played_once`; `set_delay` changes only the delay |
| Animations.StepSameTick | animation.py:45-52 | an update in the frame the clock was started changes nothing |
| Animations.RunPhase | animation.py:45-52 | from `set_frames`, each frame is shown for exactly `delay + 1` updates, in order |
| Animations.FirstPlayedOnce | animation.py:45-56 | `played_once` becomes true exactly after `len(frames) * (delay + 1)` updates, and the cursor is then back at 0 |
| Animations.Animation.constructor | animation.py:38-43 | a new animation is at frame 0 of its frames, its clock started now and `played_once` false |
| Animations.Animation.Update | animation.py:45-52 | the update is the step `Step` on the snapshot (see StepBehaviour) |
| Animations.Animation.SetFrames | animation.py:58-62 | the new snapshot is `WithFrames` of the old one (see SettersBehaviour) |
| Animations.Animation.SetDelay | animation.py:64-65 | the new snapshot is `WithDelay` of the old one |
| Animations.Animation.GetImage | animation.py:67-68 | the image returned is `frames[current_frame]`, which is one of the frames |
| Entities.Fall | mario.py:84-89 | a gravity step adds GRAVITY and clamps to the cap: the result is the smaller of the two |
| Entities.FallsClosedForm | items.py:21-24 | from below the cap, the fall speed grows by GRAVITY per frame until it reaches the cap and stays there |
| Entities.Entity.constructor | entity.py:6-15 | a new entity faces left, is alive and still, and has an empty animation |
| Entities.Entity.Hit | entity.py:17-19 | `hit` kills the entity and changes nothing else |
| Entities.Entity.SetDead | entity.py:31-34 | the `dead` setter stores a boolean and silently ignores any other value |
| Collisions.Flip | enemies.py:88-93 | turning around always gives a valid direction (0 or 1), and the opposite one for a valid direction |
| Collisions.TurnStepResolves | enemies.py:84-93 | a walker overlapping a tile ends flush with it on its facing side, no longer overlaps it, faces the other way and keeps its row |
| Collisions.TurnPassKeepsRow | items.py:77-85 | a turning pass over the tiles keeps the walker's y and size and leaves a valid direction |
| Collisions.TurnPassClear | enemies.py:84-93 | with no overlapping tile the pass changes nothing |
| Collisions.PushStepResolves | items.py:31-37 | the base item snaps its right edge to a tile it moves right into, and its left edge otherwise |
| Collisions.PushPassKeepsRow | items.py:31-37 | the horizontal pass of the base item moves only x |
| Collisions.LandStepResolves | items.py:39-45 | a falling box lands on the tile's top, a rising one bumps the tile's bottom, and the overlap is gone |
| Collisions.SlidePassKeepsColumn | items.py:39-45 | the vertical pass moves only y |
| Collisions.SettlePassStops | enemies.py:196-203 | the enemies' vertical pass moves only y and leaves the velocity either unchanged or 0 |
| TilePasses.TurnTiles | enemies.py:84-93 | the loop over the tile objects computes the turning pass over their rectangles |
| TilePasses.PushTiles | items.py:31-37 | the loop computes the base item's horizontal pass |
| TilePasses.SlideTiles | items.py:39-45 | the loop computes the base item's vertical pass |
| TilePasses.SettleTiles | enemies.py:196-203 | the loop computes the enemies' vertical pass |
| LevelTiles.Fresh | level_tiles.py:10-12 | a new tile is not broken, not bouncing and not used, and meets the tile invariant |
| LevelTiles.Destroyed | level_tiles.py:17-18 | `destroy` sets `broken` and nothing else |
| LevelTiles.Bounced | level_tiles.py:68-69 | `bounce` sets `bouncing` and nothing else; a block at rest bounces from its own y with count 0 |
| LevelTiles.BlockStep | level_tiles.py:47-59 | a block's update changes nothing unless it bounces, and never changes its kind, rectangle, broken flag or contents |
| LevelTiles.TileStep | level_tiles.py:14-59 | a tile's update keeps its invariant, kind, rectangle and broken flag |
| LevelTiles.CoinHit | level_tiles.py:94-98 | a hit takes one coin while there is one; once empty it stops giving coins |
| LevelTiles.Used | level_tiles.py:123-124 | `use` marks the question block used and changes nothing else |
| LevelTiles.BounceCycle | level_tiles.py:47-59 | a bounce lifts the drawn block 1 pixel per frame for BOUNCE_TIME frames, then puts it back at rest at its own y |
| LevelTiles.BrokenSticky | level_tiles.py:17-18 | nothing un-breaks a broken tile |
| LevelTiles.CoinHitsClosedForm | level_tiles.py:94-98 | after k hits a block with c coins holds max(c - k, 0) coins, and still gives coins exactly while k <= c |
| LevelTiles.CoinHitsMonotone | level_tiles.py:94-98 | hits never add coins, never revive an empty block and never make the count negative |
| LevelTiles.Tile.Plain | level_tiles.py:146-204 | floors, stairs and flag pieces are fresh tiles of one tile size at (x, y) |
| LevelTiles.Tile.NewBlock | level_tiles.py:26-45 | a new block is fresh, with the given `breakable` |
| LevelTiles.Tile.NewCoinBlock | level_tiles.py:87-92 | a new coin block is fresh and holds the given coins |
| LevelTiles.Tile.NewQuestionBlock | level_tiles.py:112-121 | a new question block is fresh and unused, stores its item type and starts its five-frame animation with the delay QUESTION_DELAY |
| LevelTiles.Tile.NewPipe | level_tiles.py:157-164 | a new pipe is a fresh tile with the given orientation |
| LevelTiles.Tile.Update | level_tiles.py:134-135 | the update is `TileStep` on the snapshot, and a question block's animation steps |
| LevelTiles.Tile.Destroy | level_tiles.py:71-72 | the new snapshot is `Destroyed` of the old one |
| LevelTiles.Tile.Bounce | level_tiles.py:68-69 | the new snapshot is `Bounced` of the old one |
| LevelTiles.Tile.Hit | level_tiles.py:94-98 | the new snapshot is `CoinHit` of the old one |
| LevelTiles.Tile.Use | level_tiles.py:123-124 | the new snapshot is `Used` of the old one |
| Items.NewItemState | items.py:9-18 | a new item is unused and still, with an item-sized rectangle and the items' smaller gravity cap |
| Items.NewMushroomState | items.py:56-66 | a Mushroom is created exactly for direction 0 or 1, moving at speed 1; any other direction is a ValueError |
| Items.QuestionItem | level_tiles.py:130-132 | `get_item` gives an item exactly for a "mushroom" block: a right-moving Mushroom standing on top of the block |
| Items.UsedItem | items.py:47-48 | `use` marks the item used and changes nothing else |
| Items.HopOffBlock | items.py:88-101 | a Mushroom landing on a broken or bouncing block stands on it, jumps with vy = -10 and turns around |
| Items.HopPassFacts | items.py:88-103 | the Mushroom's vertical pass moves only y, keeps a valid direction and leaves vy unchanged or at the jump speed |
| Items.ItemStepFacts | items.py:20-74 | an item's update keeps its size and flags and respects the gravity cap; a Mushroom ends with vx = ±speed following its direction |
| Items.Item.constructor | items.py:9-18 | a new base item is `NewItemState` |
| Items.Item.Mushroom | items.py:56-66 | a new Mushroom is the successful `NewMushroomState` |
| Items.Item.Update | items.py:68-74 | the update is `ItemStep` on the snapshot, over the tiles' snapshots |
| Items.Item.FallAndSlide | items.py:20-26 | gravity with the item's cap, then the horizontal move |
| Items.Item.Drop | items.py:28 | the vertical move by vy |
| Items.Item.FollowDirection | items.py:71-74 | a Mushroom's vx follows its direction |
| Items.Item.HorizontalCollisions | items.py:31-37 | the item's horizontal collision check, dispatched by kind |
| Items.Item.TurnAtWalls | items.py:77-85 | the Mushroom's horizontal check is the turning pass |
| Items.Item.PushBack | items.py:31-37 | the base item's horizontal check is the push pass |
| Items.Item.VerticalCollisions | items.py:39-45 | the item's vertical collision check, dispatched by kind |
| Items.Item.HopOnBlocks | items.py:88-103 | the Mushroom's vertical check is the hop pass |
| Items.Item.LandOrBump | items.py:39-45 | the base item's vertical check is the slide pass |
| Items.Item.Use | items.py:47-48 | the new snapshot is `UsedItem` of the old one |
| Items.GetItem | level_tiles.py:130-132 | returns a new Mushroom exactly when `get_item` gives one, with that Mushroom's state |
| Items.ReleaseState | level_tiles.py:130-132 | a released Mushroom moves right and stands on top of its block |
| Items.ReleaseIsQuestionItem | level_tiles.py:130-132 | a mushroom block's `get_item` is exactly the Mushroom released at the block's corner |
| Items.AppendReleased | mario.py:275 | appends the released Mushrooms as new objects, in order, after the items already there |
| Items.ReleaseAll | mario.py:275 | creates one new, distinct Mushroom per release request, in order |
| Particles.PieceLaunch | particles.py:123-146 | a brick piece is launched exactly for direction 0..3, with vx = -5 for 0 and 3, +5 otherwise, and vy = -7 for the upper pieces and -5 for the lower ones; other directions are a ValueError |
| Particles.NewPieceState | particles.py:123-150 | a new piece shows, has its clock at 0 and the launch velocity of its direction |
| Particles.PieceFlight | particles.py:152-159 | after k <= FPS updates a piece has moved k·vx across and k·vy + k(k-1)/2 down, and its vy has grown by k |
| Particles.PieceClock | particles.py:152-159 | during its flight a piece counts one per update and keeps showing |
| Particles.PieceLanded | particles.py:152-159 | once its FPS frames are over, a piece stops showing and moves no more |
| Particles.ScoreTextState | particles.py:36-40 | a new score text shows its points at (x, y) with its clock at 0 |
| Particles.CoinState | particles.py:60-73 | a new coin particle sits above the block, moves up at 10 pixels per frame and starts its three-frame animation |
| Particles.BurstState | particles.py:94-103 | a new burst holds four pieces, directions 0 to 3; the last two start 8 pixels lower |
| Particles.FireworkState | particles.py:180-191 | a new firework shows with the drawn velocity and starts its three-frame animation |
| Particles.PiecesStep | particles.py:105-107 | a burst's update updates each of its pieces once |
| Particles.ScoreTextRise | particles.py:42-48 | a score text rises one pixel per update for FPS updates, then stops showing |
| Particles.AnimatedParticleRun | particles.py:75-83 | a coin or a firework shows exactly until its animation has played once |
| Particles.AnimatedLifetime | particles.py:193-201 | an animated particle shows for exactly `len(frames) * (delay + 1)` updates |
| Particles.CoinLifetime | particles.py:75-83 | a coin particle shows for exactly 21 updates |
| Particles.FireworkLifetime | particles.py:193-201 | a firework shows for exactly 12 updates |
| Particles.BurstAlwaysShowing | particles.py:105-107 | a burst never stops showing (see Findings) |
| Particles.RunPieces | particles.py:105-107 | after n updates of a burst, each piece has had n updates |
| Particles.BurstOutlivesPieces | particles.py:105-107 | as written: after FPS + 1 updates all four pieces are hidden, yet the burst still shows |
| Particles.SettledBurstStep | particles.py:105-107 | corrected burst update: the pieces update as in the source, and the burst shows exactly while some piece shows |
| Particles.SettledPieces | particles.py:105-107 | the corrected burst moves its pieces exactly as the source's burst does |
| Particles.BurstSettles | particles.py:105-107 | the corrected burst shows exactly during the first FPS updates and stops when its last piece lands |
| Particles.Piece.constructor | particles.py:123-150 | a new piece is `NewPieceState` |
| Particles.Piece.Update | particles.py:152-159 | the update is `PieceStep` on the snapshot |
| Particles.Particle.NewScoreText | particles.py:36-40 | a new score text is `ScoreTextState` |
| Particles.Particle.NewCoin | particles.py:60-73 | a new coin particle is `CoinState` |
| Particles.Particle.NewBrokenBlocks | particles.py:94-103 | a new burst is `BurstState`, with four new piece objects |
| Particles.Particle.NewFirework | particles.py:180-191 | a new firework is `FireworkState` with the drawn velocity |
| Particles.Particle.Update | particles.py:42-201 | the update is `ParticleStep` on the snapshot: a score text rises, a coin and a firework animate and fly, a burst updates its pieces |
| Particles.Particle.UpdatePieces | particles.py:105-107 | each piece object is updated once, in order |
| Particles.SpawnState | mario.py:358-368 | a score request stands for a new score text and a coin request for a new coin particle, at the requested place |
| Particles.SpawnOne | mario.py:358-368 | creates the particle a score or coin request stands for |
| Particles.SpawnAll | mario.py:358-368 | creates the requested particles as new objects, in order |
| Enemies.GoombaState | enemies.py:49-58 | a new Goomba is a 16×16 living walker facing left, with its 2-frame walk animation, and does damage |
| Enemies.KoopaState | enemies.py:127-140 | a new KoopaTroopa is a 16×24 walker out of its shell that remembers its spawn x, and does damage |
| Enemies.Crush | enemies.py:120-123 | a Goomba hit shows its flattened frame and dies; nothing else changes |
| Enemies.Fallen | enemies.py:19-23 | an enemy below the screen is dead |
| Enemies.Heading | enemies.py:71-75 | a walker moves at -speed facing left (0) and +speed otherwise |
| Enemies.Swept | enemies.py:192-194 | a moving shell destroys exactly the breakable blocks its pass collides with |
| Enemies.GoombaHitIdempotent | enemies.py:120-123 | hitting a Goomba twice is hitting it once, and a hit Goomba does no damage |
| Enemies.KoopaHitCycle | enemies.py:205-222 | the first hit hides the Koopa in a still shell that keeps its rectangle; a second hit sets the shell moving in Mario's direction at shell speed, and a moving shell does damage |
| Enemies.DeadGoombaStill | enemies.py:60-64 | a dead Goomba only plays its animation |
| Enemies.CorpseLifetime | enemies.py:43-45 | a hit Goomba's animation has played once exactly 16 frames later, when the level may delete it |
| Enemies.GoombaLandSettles | enemies.py:95-106 | the Goomba's vertical check is the enemies' settling pass, and it can only kill the Goomba, never revive it |
| Enemies.CrushedByBlock | enemies.py:98-103 | a Goomba landing on a broken or bouncing block stands on it, stops and dies |
| Enemies.GoombaShellsIff | enemies.py:108-115 | a Goomba is crushed exactly when some other enemy is a damaging shell that overlaps it |
| Enemies.GoombaStepFacts | enemies.py:60-82 | a living Goomba's update keeps its kind, speed and size, caps its fall speed, walks at ±speed and keeps a valid direction |
| Enemies.KoopaStepFacts | enemies.py:142-181 | a Koopa's update keeps its shell state and size and caps its fall speed; out of its shell it turns when past its patrol band and walks at ±speed; a moving shell slides at ±shell speed |
| Enemies.KoopaSparesTiles | enemies.py:183-194 | only a moving shell breaks blocks |
| Enemies.Enemy.NewGoomba | enemies.py:49-58 | a new Goomba object is `GoombaState` |
| Enemies.Enemy.NewKoopa | enemies.py:127-140 | a new KoopaTroopa object is `KoopaState` |
| Enemies.Enemy.Hit | enemies.py:205-222 | the new snapshot is `Struck` of the old one, which dispatches on the kind: Goomba (enemies.py:120-123) or KoopaTroopa |
| Enemies.Enemy.Update | enemies.py:60-181 | a Goomba's update is `GoombaStep` and leaves the tiles alone; a Koopa's update is `KoopaStep` on it and the tiles |
| Enemies.Enemy.UpdateBase | enemies.py:19-23 | the base update marks a fallen enemy dead, then the animation steps |
| Enemies.Enemy.UpdateGoomba | enemies.py:60-82 | the Goomba's update is `GoombaStep`, over the other enemies' snapshots |
| Enemies.Enemy.WalkGoomba | enemies.py:64-80 | gravity, the walking velocity, the horizontal move and check, and the vertical move |
| Enemies.Enemy.UpdateKoopa | enemies.py:142-181 | the Koopa's update is `KoopaStep` on it and the tiles |
| Enemies.Enemy.CollideKoopa | enemies.py:178-181 | the Koopa's collision checks: turn, sweep blocks, fall and settle |
| Enemies.Enemy.SweepTiles | enemies.py:183-194 | the Koopa's horizontal check turns it and destroys the blocks `Swept` names |
| Enemies.Enemy.SettleOnTiles | enemies.py:196-203 | the vertical move and the settling pass |
| Enemies.Enemy.SteerKoopa | enemies.py:145-175 | gravity, the patrol turn and the velocity choice |
| Enemies.Enemy.TurnAtTiles | enemies.py:84-93 | the Goomba's horizontal check is the turning pass |
| Enemies.Enemy.LandOnTiles | enemies.py:95-106 | the Goomba's vertical check is `GoombaLand` |
| Enemies.Enemy.LandOn | enemies.py:96-106 | one tile of the Goomba's vertical check |
| Enemies.Enemy.CheckShells | enemies.py:108-115 | the Goomba's check against the other enemies is `GoombaShells` |
| Enemies.Enemy.CheckShell | enemies.py:111-115 | one other enemy crushes the Goomba exactly when it is a damaging shell that overlaps it |
| Enemies.SweepPass | enemies.py:183-194 | the loop turns the Koopa and destroys exactly the blocks `Swept` names |
| Enemies.OthersExactly | enemies.py:109-111 | the enemies a Goomba checks are exactly the ones that are not itself |
| Players.ActionNames | mario.py:375-421 | the eight accepted names are exactly the actions `change_action` handles |
| Players.KnownActionNames | mario.py:375-421 | every handled action round-trips through its name |
| Players.ActionLook | mario.py:375-418 | every handled action has a non-empty frame list and a delay; an unknown name has none |
| Players.MarioStart | mario.py:14-47 | a new Mario is small, alive, still, standing, facing left, with no score, no coins and no finish flags |
| Players.Acted | mario.py:370-421 | as written: `change_action` stores the new action whatever it is; a handled one restarts the animation at frame 0, an unknown one leaves the animation alone |
| Players.ActionChecked | mario.py:419-421 | an unknown action name is a ValueError |
| Players.RejectedActionStored | mario.py:376-421 | as written: after a rejected name, `action` reports that rejected name |
| Players.ActedChecked | mario.py:370-421 | corrected `change_action`: a rejected name changes nothing; an accepted one sets the action and its animation only |
| Players.ActedCheckedAgrees | mario.py:370-421 | the corrected and the written `change_action` agree on every accepted name, which is every name Mario itself passes |
| Players.Scored | mario.py:362-368 | `increase_score` adds exactly the points to the score |
| Players.Coined | mario.py:358-360 | `add_coin` adds exactly one coin |
| Players.Gravity | mario.py:84-89 | gravity caps vy at MAX_ACCELERATION and changes nothing else |
| Players.Countdown | mario.py:137-141 | the invulnerability count never touches score or coins |
| Players.InvulnerabilityEnds | mario.py:137-141 | invulnerability lasts exactly INVULNERABLE_TIME frames |
| Players.Controls | mario.py:145-160 | the jump and crouch controls never touch score or coins |
| Players.WalkAnim | mario.py:204-216 | the walk animation update changes only the action and the animation |
| Players.Held | mario.py:164-172 | holding an arrow sets Mario's direction and vx = ±MARIO_SPEED |
| Players.Stopped | mario.py:173-175 | a Mario with no horizontal speed is neither walking nor turning |
| Players.Steered | mario.py:163-175 | the arrow controls never touch score or coins |
| Players.Controlled | mario.py:137-175 | the controls part of the update never touches score or coins |
| Players.TurnBeforeWalk | mario.py:204-216 | on the ground, pressing the other arrow starts the turn animation, which has not yet played |
| Players.SideStep | mario.py:219-235 | one tile of the horizontal check moves Mario only sideways and may only start, never end, the pole finish |
| Players.SideRight | mario.py:223-235 | the right-facing half of that step |
| Players.SidePass | mario.py:218-235 | the whole horizontal check keeps Mario's y and size, and once on the pole he stays on it |
| Players.SideStepResolves | mario.py:218-235 | facing left Mario snaps to the tile's right edge; facing right he snaps to its left edge, except that a pole or flag tip starts the pole finish, centred on the pole at its y, and a flag piece is passed through |
| Players.CoinPaid | mario.py:271-272 | paying a coin adds one coin and 100 points and spawns a coin particle and a score text |
| Players.QuestionHit | mario.py:263-275 | hitting a question block keeps the block's kind and rectangle and books every point it awards |
| Players.CoinBlockHit | mario.py:276-280 | hitting a coin block keeps the block's kind and rectangle and books every point and coin it awards |
| Players.HeadHit | mario.py:251-280 | a head hit changes only score and coins of Mario, and books them |
| Players.BumpStep | mario.py:240-281 | one tile of the vertical check moves Mario only vertically and books all points and coins |
| Players.BumpPass | mario.py:237-281 | the whole vertical check keeps every tile's kind and rectangle and books all points and coins |
| Players.Landing | mario.py:245-248 | falling onto a tile puts Mario on it, lets him jump, stops him and affects nothing else |
| Players.HeadHitSnaps | mario.py:251-252 | a head hit puts Mario's top at the tile's bottom and stops him |
| Players.HeadHitBlock | mario.py:254-262 | a big Mario breaks a breakable block; a small one bounces it |
| Players.HeadHitQuestion | mario.py:263-275 | an unused mushroom block becomes used; a big Mario gets a coin and 100 points, a small one releases the Mushroom |
| Players.HeadHitUsed | mario.py:263-264 | a used question block gives nothing |
| Players.HeadHitCoinBlock | mario.py:276-280 | a coin block takes a coin and pays it while it gives coins, and gives nothing afterwards |
| Players.SideClash | mario.py:285-291 | one enemy of the horizontal enemy check: no score, no particles |
| Players.SideClashes | mario.py:283-291 | the horizontal enemy check keeps the enemy count and never scores |
| Players.StompStep | mario.py:295-311 | one enemy of the vertical enemy check books every point it awards |
| Players.Stomped | mario.py:296-308 | a stomp books every point it awards |
| Players.Stomps | mario.py:293-311 | the vertical enemy check keeps the enemy count and books every point |
| Players.Stomp | mario.py:296-301 | stomping a living enemy gives 100 points and a score text, bounces Mario at STOMP_VY and stands him on the enemy |
| Players.StompHits | mario.py:302-308 | the stomped enemy is hit: a Koopa in Mario's direction, a Goomba with the default direction |
| Players.PickupStep | mario.py:315-319 | one item of the item check books every point it awards |
| Players.Pickups | mario.py:313-319 | the item check keeps the item count and books every point |
| Players.MushroomPickup | mario.py:315-332 | touching a Mushroom uses it, makes Mario big (32 high, same bottom) and gives 1000 points |
| Players.Shifted | mario.py:178-182 | a move changes only Mario's position, by exactly the given offsets |
| Players.Sideways | mario.py:178-180 | the horizontal move and checks never score |
| Players.Downwards | mario.py:181-187 | the vertical move and checks book every point, keep the tiles and enemies, and only add items |
| Players.Moved | mario.py:177-187 | Mario's move and collisions book every point, keep the tiles and enemies, and only add items |
| Players.Bounded | mario.py:189-194 | the screen-edge clamp, the fall death and the B key never touch score or coins |
| Players.PlayStep | mario.py:136-194 | a playing frame books every point, keeps the tiles and enemies, and only adds items |
| Players.AfterPlay | mario.py:196-202 | the grow and death branches never touch score or coins |
| Players.FlagBonus | mario.py:110-112 | the flag bonus is a ZeroDivisionError exactly when the pole was grabbed at y = 0 |
| Players.FlagBonusRounds | mario.py:107-113 | for y > 0 the bonus is 50000 / y rounded down to hundreds, and a higher grab never gives less |
| Players.Posed | mario.py:99-100 | the action is changed only when it differs |
| Players.TowardsCastle | mario.py:115-124 | the walk to the castle moves Mario right by his speed, facing right once past the pole |
| Players.CastleWalk | mario.py:115-129 | the castle walk keeps score, coins and the finish flags, moves right by his speed and shows walking |
| Players.WalkToCastle | mario.py:115-133 | the castle walk books every point; Mario is inside the castle once his x reaches the door |
| Players.BonusWalk | mario.py:107-133 | at the pole's base, Mario gets the flag bonus once, with a score text, and walks on |
| Players.PoleStep | mario.py:96-133 | the pole branch books every point; it stops with the ZeroDivisionError exactly when Mario is at the base, unpaid, and grabbed at y = 0 |
| Players.PoleBonusOnce | mario.py:106-114 | the flag bonus is paid exactly once: on the first frame at the base, and never again |
| Players.MarioStep | mario.py:92-202 | Mario's update only appends particles, books every point they award, keeps the tiles and enemies, and only adds items; when it stops with an error the world is unchanged |
| Players.MarioStepOnPole | mario.py:95-133 | while finishing on the pole the update is the pole branch |
| Players.MarioStepOffPole | mario.py:135-202 | otherwise it is the playing branch followed by the grow and death branches |
| Players.Played | mario.py:136-194 | a growing or dying Mario does not move or collide |
| Players.HitStateMachine | mario.py:345-356 | an invulnerable Mario ignores a hit; a big one becomes small and invulnerable, 16 high with the same bottom; a small one dies with the death jump DEATH_VY |
| Players.GrowStateMachine | mario.py:327-332 | growing is idempotent: a small Mario becomes big (32 high, 16 higher) and plays the grow animation; a big one is unchanged |
| Players.HitUndoesGrow | mario.py:327-356 | a hit right after growing gives back the small rectangle, now invulnerable |
| Players.Mario.constructor | mario.py:14-47 | a new Mario object is `MarioStart` |
| Players.Mario.ChangeAction | mario.py:370-425 | the new snapshot is `Acted` of the old one, and the result reports the ValueError |
| Players.Mario.Die | mario.py:321-325 | the new snapshot is `Died` of the old one |
| Players.Mario.Grow | mario.py:327-332 | the new snapshot is `Grown` of the old one |
| Players.Mario.Hit | mario.py:345-356 | the new snapshot is `Hurt` of the old one |
| Players.Mario.IncreaseScore | mario.py:362-368 | the score is `Scored`, and the text request is a score text at Mario's corner |
| Players.Mario.AddCoin | mario.py:358-360 | the coins are `Coined`, and the request is a coin particle at the block |
| Players.Mario.CheckSideTiles | mario.py:218-235 | the horizontal check is `SidePass` |
| Players.Mario.SideTile | mario.py:219-235 | one tile of the horizontal check is `SideStep` |
| Players.Mario.SideTileRight | mario.py:223-235 | the right-facing half is `SideRight` |
| Players.Mario.PayCoin | mario.py:271-272 | pays a coin and 100 points as `CoinPaid` says |
| Players.Mario.QuestionHitOn | mario.py:263-275 | a head hit on a question block is `QuestionHit` |
| Players.Mario.QuestionItemOn | mario.py:267-275 | the item part of that hit |
| Players.Mario.CoinBlockHitOn | mario.py:276-280 | a head hit on a coin block is `CoinBlockHit` |
| Players.Mario.HeadHitOn | mario.py:253-280 | a head hit on any tile is `HeadHit` |
| Players.Mario.BumpTile | mario.py:240-281 | one tile of the vertical check is `BumpStep` |
| Players.Mario.CheckBumps | mario.py:237-281 | the vertical check over the tile objects is `BumpPass` |
| Players.Mario.Land | mario.py:245-248 | landing stands Mario on the tile, lets him jump and stops him |
| Players.Mario.HeadBump | mario.py:251-281 | the head hit after snapping Mario's top to the tile |
| Players.Mario.SideClashWith | mario.py:285-291 | one enemy of the horizontal enemy check is `SideClash` |
| Players.Mario.CheckSideEnemies | mario.py:283-291 | the horizontal enemy check over the enemy objects is `SideClashes` |
| Players.Mario.StompOn | mario.py:295-311 | one enemy of the vertical enemy check is `StompStep` |
| Players.Mario.StompEnemy | mario.py:296-308 | a stomp is `Stomped` |
| Players.Mario.CheckStomps | mario.py:293-311 | the vertical enemy check over the enemy objects is `Stomps` |
| Players.Mario.PickupOn | mario.py:315-319 | one item of the item check is `PickupStep` |
| Players.Mario.CheckPickups | mario.py:313-319 | the item check over the item objects is `Pickups` |
| Players.Mario.ApplyGravity | mario.py:84-89 | the new snapshot is `Gravity` of the old one |
| Players.Mario.CountInvulnerable | mario.py:137-141 | the new snapshot is `Countdown` of the old one |
| Players.Mario.CheckJump | mario.py:145-160 | the new snapshot is `Controls` of the old one |
| Players.Mario.UpdateWalkAnimation | mario.py:204-216 | the new snapshot is `WalkAnim` of the old one |
| Players.Mario.Steer | mario.py:163-175 | the new snapshot is `Steered` of the old one |
| Players.Mario.WalkTowards | mario.py:164-172 | holding an arrow is `Held` |
| Players.Mario.SpeedTowards | mario.py:164-171 | the speed and walk animation for an arrow |
| Players.Mario.Face | mario.py:167 | sets only the direction |
| Players.Mario.StopWalking | mario.py:173-175 | the new snapshot is `Stopped` of the old one |
| Players.Mario.Control | mario.py:137-175 | the new snapshot is `Controlled` of the old one |
| Players.Mario.Bound | mario.py:189-194 | the new snapshot is `Bounded` of the old one |
| Players.Mario.FinishAction | mario.py:196-202 | the new snapshot is `AfterPlay` of the old one |
| Players.Mario.ShiftAgainstTiles | mario.py:178-179 | the horizontal move and check leave the enemies alone |
| Players.Mario.Shift | mario.py:178 | the new snapshot is `Shifted` of the old one |
| Players.Mario.ReleaseAndPick | mario.py:183-187 | the released Mushrooms join the items before the item check, which is `Pickups` |
| Players.Mario.StartFall | mario.py:181-182 | Mario may no longer jump and moves down by vy |
| Players.Mario.WalkCastle | mario.py:115-133 | the walk to the castle is `WalkToCastle` |
| Players.Mario.BumpToDoor | mario.py:130-133 | the vertical check, then the door test |
| Players.Mario.EnterCastle | mario.py:131-133 | Mario is inside the castle once his x reaches the door |
| Players.Mario.CastleStep | mario.py:115-129 | the castle walk before the vertical check is `CastleWalk` |
| Players.Mario.CastleMove | mario.py:115-129 | the same, without the tiles |
| Players.Mario.HeadForCastle | mario.py:115-124 | the new snapshot is `TowardsCastle` of the old one |
| Players.Mario.Pose | mario.py:99-100 | the new snapshot is `Posed` of the old one |
| Players.Mario.PoleFrame | mario.py:96-133 | the pole branch is `PoleStep`, ZeroDivisionError included |
| Players.Mario.PoleSlide | mario.py:98-104 | the slide down the pole: grab, 2 pixels down, the vertical check |
| Players.Mario.SlideStep | mario.py:99-103 | grab and 2 pixels down |
| Players.Mario.BonusFrame | mario.py:106-133 | the first frame at the pole's base pays the bonus or stops with the ZeroDivisionError |
| Players.Mario.PayAndWalk | mario.py:107-133 | pays the bonus and walks on as `BonusWalk` says |
| Players.Mario.PayBonus | mario.py:107-114 | the bonus is scored with a score text and marked paid |
| Players.Mario.Update | mario.py:92-202 | Mario's update is `MarioStep` on Mario, the tiles, the enemies and the items; the released Mushrooms and the new particles are new objects |
| LevelPasses.ItemsKept | level.py:211-215 | the kept items are the updated items that are not used |
| LevelPasses.ItemsPassKept | level.py:211-215 | the backward delete-while-iterating loop keeps the updated unused items in their original order |
| LevelPasses.ItemsKeptComplete | level.py:211-215 | every item that is not used after its update is kept |
| LevelPasses.PruneItems | level.py:211-215 | the loop over the item objects leaves exactly `ItemsKept`, with no new objects |
| LevelPasses.StepItem | level.py:212 | updates one item and leaves the others alone |
| LevelPasses.ParticlesKept | level.py:219-222 | the kept particles are the updated particles that still show |
| LevelPasses.ParticlesPassKept | level.py:219-222 | the backward loop keeps the updated showing particles in their original order |
| LevelPasses.ParticlesKeptComplete | level.py:219-222 | every particle still showing after its update is kept |
| LevelPasses.PruneParticles | level.py:219-222 | the loop over the particle objects leaves exactly `ParticlesKept` |
| LevelPasses.StepParticle | level.py:220 | updates one particle and leaves the others alone |
| LevelPasses.TilesKept | level.py:226-231 | the kept tiles are the updated tiles that are not broken |
| LevelPasses.Debris | level.py:226-231 | each removed tile leaves exactly one burst |
| LevelPasses.TilesPassSplit | level.py:226-231 | the backward loop keeps the unbroken tiles in order and appends one burst per broken tile |
| LevelPasses.DebrisFromBroken | level.py:228-230 | every burst comes from a broken tile at that tile's corner |
| LevelPasses.StepTile | level.py:227 | updates one tile and leaves the others alone |
| LevelPasses.PruneTiles | level.py:226-231 | the loop over the tile objects leaves exactly the kept tiles and the new bursts |
| LevelPasses.AppendBurst | level.py:230 | appends one new burst at the given corner |
| LevelPasses.Survivors | level.py:169-178 | the kept enemies are those neither far from Mario nor dead with their animation played |
| LevelPasses.SurvivorsComplete | level.py:169-178 | every enemy that is neither far nor finished is kept |
| LevelPasses.EnemiesPass | level.py:169-178 | the enemy loop produces exactly one updated state per enemy |
| LevelPasses.EnemiesPassKeeps | level.py:169-178 | the backward loop keeps exactly the survivors, in their original order |
| LevelPasses.UpdateEnemy | level.py:170 | updates one enemy against the tiles and the others, and leaves the other enemies alone |
| LevelPasses.PruneEnemies | level.py:169-178 | the loop over the enemy objects leaves exactly the kept enemies and the updated tiles |
| LevelPasses.OthersOfDistinct | enemies.py:109-111 | in a list of distinct enemies, the others of enemy i are the list without i |
| LevelPasses.Spawned | level.py:243-250 | the old enemies stay in place and a new one is appended exactly when there are fewer than MAX_ENEMIES (4) and the frame is a multiple of five seconds; spawning never makes the list longer than 4 |
| LevelPasses.SpawnEnemy | level.py:247-250 | creates a Koopa or a Goomba at the right edge of the screen, at y = 0 |
| Levels.Placed | level.py:106-150 | every tile character gives exactly one fresh tile at its cell; a finish flag is shifted half a tile right |
| Levels.RowTilesCount | level.py:104-150 | a row gives exactly one tile per tile character |
| Levels.RowTilesSound | level.py:104-150 | every tile of a row comes from one of its characters |
| Levels.RowTilesComplete | level.py:104-150 | every tile character of a row gives its tile |
| Levels.LevelStartDefault | level.py:101 | with no 'P', Mario starts at (0, 0) |
| Levels.LevelStartLast | level.py:110-111 | Mario starts at the last 'P' of the text |
| Levels.LevelStartInWorld | level.py:101-111 | Mario's start is never left of or above the world |
| Levels.MakeTiles | level.py:112-150 | creates the tile object one character stands for |
| Levels.BuildLevel | level.py:99-150 | `create_level` makes Mario at his start and one new tile per tile character, in text order |
| Levels.BuildRow | level.py:104-150 | after row r, Mario stands at the start the rows so far give and the tiles are those of the rows so far |
| Levels.BuildCells | level.py:106-150 | the cell loop of one row appends exactly that row's tiles and moves Mario to the row's last 'P' |
| Levels.PlaceCell | level.py:106-150 | one character of `create_level` |
| Levels.CreateLevel | level.py:99-150 | the same, with every tile and its animation new |
| Levels.Focused | level.py:27-36 | the camera keeps its world width and remembers the largest x it reached |
| Levels.FocusKeepsCamera | level.py:27-36 | focusing keeps the camera inside the world and never lets it go back left; it centres on the target when that is possible |
| Levels.Camera.constructor | level.py:19-25 | a new camera is at 0 |
| Levels.Camera.Focus | level.py:27-36 | the new snapshot is `Focused` of the old one |
| Levels.ScrollKeepsImagesTogether | level.py:61-70 | the two background images stay one width apart, and a swap happens exactly when the scroll passes the next multiple of the image width times the parallax factor (256 × 3 pixels) |
| Levels.Background.constructor | level.py:50-59 | the two images start side by side |
| Levels.Background.Update | level.py:61-70 | the new snapshot is `Scrolled` of the old one |
| Levels.PlayerMoved | level.py:154 | Mario's update only appends particles and keeps the enemy count and the level's own fields |
| Levels.Followed | level.py:156-161 | after the camera follows, Mario is never left of the camera's minimum |
| Levels.Ticked | level.py:182-188 | one second of play takes one from the timer, and Mario dies when it reaches 0 |
| Levels.Cleaned | level.py:209-231 | the sweeps touch only the tiles, items and particles |
| Levels.RestartedInv | level.py:233-241 | a reset level meets the level invariant and keeps lives and flag, with Mario inside the world |
| Levels.FollowedInv | level.py:156-161 | following keeps the level invariant |
| Levels.BranchedInv | level.py:163-206 | the play, castle and death branches keep the invariant; a finished death costs a life, or requests quitting with no lives left |
| Levels.LevelStepKeeps | level.py:152-231 | a whole frame keeps the level invariant, never lets Mario go back left of the camera, never spawns past 4 enemies, and takes a life or quits exactly on a finished death |
| Levels.RestKeeps | level.py:156-231 | the part of the frame after Mario's update keeps the same facts |
| Levels.BranchedBoundsEnemies | level.py:163-188 | spawning never makes more than 4 enemies |
| Levels.PlayTimer | level.py:182-188 | the timer runs down once a second during play, and Mario dies when it runs out |
| Levels.CastleTimer | level.py:189-198 | in the castle, each frame turns 2 time units into 200 points and raises the flag until it reaches the top |
| Levels.CelebratedParts | level.py:189-198 | with time left, the castle branch takes 2 from the time, gives 200 points, moves the flag and adds the firework when one is launched; with no time left it only sets the time to 0 |
| Levels.RestBranches | level.py:163-206 | the frame picks the play, castle or death branch by Mario's state |
| Levels.PlayerKeepsClock | level.py:154 | Mario's update leaves the timer, lives, flag and quit request alone |
| Levels.SweptClean | level.py:209-231 | after a frame no tile is broken and no item is used |
| Levels.OpeningInv | level.py:80-97 | a new level meets the invariant with 5 lives and is what a reset would build |
| Levels.MoveMario | level.py:154 | Mario's update on the level's lists; new items and particles are new objects |
| Levels.MoveParts | level.py:154 | the same on the level's parts, as `MarioStep` with the new particles appended |
| Levels.Layout | level.py:233-241 | the objects of a reset: a new Mario and tiles from the text, empty lists, a new camera and background |
| Levels.EnemiesAmong | level.py:169-178 | the enemy loop among the level's parts is `EnemiesPass` |
| Levels.ItemsAmong | level.py:211-215 | the item loop among the level's parts is `ItemsKept` |
| Levels.ParticlesAmong | level.py:219-222 | the particle loop among the level's parts is `ParticlesKept` |
| Levels.TilesAmong | level.py:226-231 | the tile loop among the level's parts keeps the tiles and appends the bursts |
| Levels.DieAmong | level.py:187-188 | Mario dies and nothing else changes |
| Levels.AwardAmong | level.py:195 | only Mario's score grows, by the given points |
| Levels.FollowAmong | level.py:156-161 | the camera, the background and Mario's x follow as `Trailed` says |
| Levels.Trail | level.py:156-161 | the camera focuses, the background scrolls and Mario is pushed to the camera's minimum |
| Levels.LaunchAmong | level.py:193-194 | appends one firework at the given place and velocity |
| Levels.NewFireworkAmid | level.py:194 | a new firework in its starting state, whose objects are all new, with Mario, the tiles, enemies, items and particles left as they were |
| Levels.CastleAmong | level.py:192-196 | the castle frame with time left: 200 points and, every 10th frame, a firework |
| Levels.SpawnedOne | level.py:243-250 | a spawn appends a Koopa or a Goomba at the right edge of the screen |
| Levels.Level.constructor | level.py:80-97 | a new level is `Opening`: the layout of its text, 500 time, 5 lives, the flag at 100 |
| Levels.Level.MovePlayer | level.py:154 | the new snapshot is `PlayerMoved` of the old one |
| Levels.Level.Follow | level.py:156-161 | the new snapshot is `Followed` of the old one |
| Levels.Level.SpawnEnemies | level.py:243-250 | the enemies become `Spawned` of the old ones |
| Levels.Level.SpawnOne | level.py:244-250 | when the list has room and the frame is due, the enemies become `Spawned` of the old ones: one new enemy at the end |
| Levels.Level.AddEnemy | level.py:248-250 | appending an enemy appends its snapshot to the level's enemies and adds only its objects to the level's |
| Levels.Level.UpdateEnemies | level.py:169-178 | the enemies and the tiles become what `EnemiesPass` gives |
| Levels.Level.CountDown | level.py:182-188 | the new snapshot is `Ticked` of the old one |
| Levels.Level.TimeLeft | level.py:182-188 | on a frame that is a multiple of FPS, the new snapshot is `Ticked` of the old one |
| Levels.Level.TimeUp | level.py:184-188 | with one second or less left, the new snapshot is `Ticked` of the old one: the timer goes down and Mario dies |
| Levels.Level.TimeDown | level.py:184 | with more than one second left, the new snapshot is `Ticked` of the old one: only the timer goes down |
| Levels.Level.Play | level.py:163-188 | the new snapshot is `Skirmish` of the old one: spawn, enemies, timer |
| Levels.Level.Celebrate | level.py:189-198 | the new snapshot is `Celebrated` of the old one |
| Levels.Level.ResetLevel | level.py:233-241 | the new snapshot is `Restarted` of the old one |
| Levels.Level.Mourn | level.py:199-206 | the new snapshot is `Mourned` of the old one |
| Levels.Level.LoseLife | level.py:201-203 | with a life left, the new snapshot is `Restarted` of the old one with one life fewer |
| Levels.Level.Branch | level.py:163-206 | the new snapshot is `Branched` of the old one |
| Levels.Level.SweepItems | level.py:211-215 | the items become `ItemsKept` |
| Levels.Level.SweepParticles | level.py:219-222 | the particles become `ParticlesKept` |
| Levels.Level.SweepTiles | level.py:226-231 | the tiles become the kept tiles and the bursts join the particles |
| Levels.Level.Sweep | level.py:209-231 | the new snapshot is `Cleaned` of the old one |
| Levels.Level.Finish | level.py:156-231 | the new snapshot is `Rest` of the old one |
| Levels.Level.Update | level.py:152-231 | a frame of the level is `LevelStep` on its snapshot, whose guarantees `LevelStepKeeps` states |

## Left out

- Sprites.Sprite: the constructor's TypeError for a non-int argument (sprite.py:8-14) is not modelled, because the fields are Dafny integers and no other value can reach them.
- LevelTiles.Tile.NewBlock: the TypeError for a non-bool `breakable` (level_tiles.py:31-34) is not modelled, because the parameter is a `bool`.
- Items.NewMushroomState: the TypeError for a non-int direction (items.py:65-66) is not modelled, because the direction is an `int`. The ValueError for an int outside 0..1 is modelled.
- Items.Item.Mushroom: requires direction 0 or 1. The ValueError for other values is the `Err` result of `NewMushroomState`, and the game only creates Mushrooms with direction 1.
- Particles.PieceLaunch: the TypeError for a non-int direction (particles.py:145-146) is not modelled, because the direction is an `int`. The ValueError is modelled.
- Particles.Piece.constructor: requires a direction in 0..3. The ValueError for other values is the `Err` result of `PieceLaunch`, and a burst only creates pieces 0 to 3.
- Players.Acted: `change_action` silently ignores a non-string argument (mario.py:375). This is not modelled, because `Action` holds only names.
- Entities.Entity: the base `_check_horizontal_collisions` and `_check_vertical_collisions` hooks (entity.py:21-25), and their copies in enemies.py:29-33, do nothing and have no member. Every class the game creates overrides them.
- LevelTiles.Tile.NewQuestionBlock: the animation delay FPS/4 is the float 7.5 in the source; the model uses the integer 7. Since the frame counter is an integer, `elapsed > 7.5` and `elapsed > 7` select the same frames. The other float delays (FPS/2, /3, /5, /6, /10, /15) are whole numbers.
- Sprites.Sprite.CenterX, Sprites.Sprite.WithCenterX: `center_x` is the float `x + width / 2` in the source; the model halves the width as an integer, both in the getter and in the setter. The two agree because every sprite of the game has an even width.
- Levels.Focused: the camera's x is `center_x - SCREEN_WIDTH / 2`, a float in the source; the model uses integers, which agree for the even widths above.
- Players.Stomp: the stomp bounce `-jump_force / 1.2` is the float -10.0 in the source; the model uses the integer STOMP_VY = -10. Mario's later positions are therefore whole numbers in both.
- Players.FlagBonus: the source divides 50000 by y as a float, floors to hundreds and truncates with `int()`. The model uses exact integer floor division, so the float rounding of `50000 / y` is not modelled.
- Levels.Draws: the random draws are parameters:
  - `random.random() < 0.25` for a Koopa (level.py:247);
  - `randint` for a firework's velocity (particles.py:183-185);
  - `randint(1, 5)` for a coin block's coins (level.py:137).
  `coinsAt` is not constrained to 1..5.
- Particles.Particle.NewFirework: requires vx in -10..10 and vy in -6..-2, the ranges `randint` draws from.
- Levels.Level.Update: requires `d.Ok()`, the firework ranges above. `pyxel.frame_count` is the parameter `tick` and the key state is the `Keys` snapshot. The `print` calls of level.py:177 and :214 are dropped. `pyxel.quit()` (level.py:206) becomes the `quitRequested` flag, because the engine's own behaviour is not part of this model.
- Levels.Level.constructor: requires a non-empty level text. For an empty one the source raises IndexError at level.py:86, which is not modelled.
- Levels.Layout: requires a non-empty level text, for the same reason.
- Animations.Animation.GetImage: requires a non-empty frame list. The IndexError the source raises on an empty one (animation.py:68) is not modelled.
- Drawing is not modelled. This covers `Image.draw`, every `draw` method, `Background.draw`, `Level.draw` and the HUD text, because they only render and change no game state. An image is kept as a coordinate record, so that animations can be compared.
- Levels.Level: the debugging helpers `add_block`, `add_goomba`, `add_koopah`, `add_mushroom`, `add_broken` and `add_firework` (level.py:298-315) are not modelled, because the game never calls them.
- main.py and the Pyxel engine are not part of this model.

## Findings

| source | as written | input that shows it | evidently intended | confidence | as-written member | corrected member |
|---|---|---|---|---|---|---|
| mario.py:376-421 | `change_action` stores the new name in `_current_action` before validating it, so after the ValueError `action` reports the rejected name | `change_action("fly")` on a standing Mario: it raises ValueError, and `action` then returns "fly" | a rejected name leaves the previous action in place | not executed | Players.RejectedActionStored | Players.ActedChecked |
| particles.py:105-107 | `BrokenBlockParticles.update` never clears `showing`, so a burst stays in the level's particle list forever, even after all its pieces are hidden | a burst after FPS + 1 = 31 updates: all four pieces are hidden and the burst still shows | the burst stops showing once none of its pieces shows | not executed | Particles.BurstOutlivesPieces | Particles.BurstSettles |

Notes on the two rows:

- `change_action` is documented as changing Mario's action and setting the frames and delay that go with it (mario.py:371-374). A rejected name has no frames, so afterwards `action` (mario.py:423-425) reports an action the animation does not show. `Players.ActedChecked` is the corrected `change_action`, and `Players.ActedCheckedAgrees` proves that it agrees with the written one on every accepted name. Mario only ever passes accepted names, so the rest of the model keeps the written `Acted`.
- `Particles.SettledBurstStep` is the corrected burst update. The level model keeps the written `ParticleStep`, so a burst is never pruned, as in the source (`Particles.BurstAlwaysShowing`).
