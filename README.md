# pixi-factory core, modelled in Dafny

pixi-factory decorates `pixi.js` sprites with game properties and gathers
them into groups. This project models three of its files:

- the hit tests of `src/contain.ts`:
  - `hitTestRectangle`: box against box;
  - `hitTestCircle`: circle against circle;
  - `hitTestCircleRectangle`: circle against box, answered by region;
  - `hitTestCirclePoint`: circle against point;
- `PSprite.create` of `src/sprite.ts` and its four property bundles: collision ("bump"), velocity, d20 and critical. This includes the closures the velocity and d20 bundles install: `setVelocity`, `setMovement`, `A_levelUP`, `A_rollAttack`, `A_rollDamage`, `A_receiveAttack` and `E_hit`;
- the `SimpleGroup` class of `src/group.ts` and `PGroup.createGroup`. This covers:
  - keyed and indexed set-up;
  - container placement;
  - lookup by tag or by position;
  - `add` and `remove`;
  - the collision sweep `E_hitEffect`.

## Project layout

- `js.dfy` (module `Js`) holds JavaScript values and errors:
  - A number is `NaN | Fin(real)`. `NaN` covers both the IEEE NaN and an absent field, because no code path of the library can tell them apart.
  - The arithmetic and comparisons follow from that.
  - There is one `Error` constructor per message the library throws.
  - `Result` models a call that returns a value or throws; `Outcome` models a call that returns nothing or throws.
- `entities.dfy` (module `Entities`) holds the sprite:
  - a class with one field per property the core reads or writes;
  - `Snapshot()`, which returns all of them as a `Fields` value. Every method that changes a sprite states its new snapshot as a function of the old one, so "nothing else changes" is part of each contract.
- `contain.dfy` (module `Contain`) holds the hit tests:
  - Each test is specified by a pure predicate and proved against an independent reference definition. These are interval overlap of exact boxes, Euclidean distance, and the geometry of the regions.
  - Each test's writes onto its arguments are methods on the sprite class.
- `sprite.dfy` (module `Sprites`) holds the content copy, the bundles as functions on `Fields`, the decorator class `PSprite`, and the closures.
- `group.dfy` (module `Groups`) holds:
  - member arrays (`SpriteArray`), so the array `defaultSetter` shares with the caller is one object;
  - the rendering container, with its size and a log of `addChild`, `removeChild`, `position.set` calls;
  - the sweep, specified by the function `Sweep` over the members' fields;
  - the `SimpleGroup` class.

Notes on how the model reads the code:

- **Collision bundle, line 110.** In `src/sprite.ts:109-111` the step guarded by `centerY` writes `y + height/2` into `centerX`. The model does the same (`FillBounds`), and `CollisionFillsFalsyFields` states the resulting fields. `centerY` and `diameter` are never written by the bundle.
- **Index given by `add`.** In indexed mode, `add` tags the new member with the array length before the push, minus one (`src/group.ts:236`). It does not call `addChild` on the container.
- **What the sweep tests against.** The sweep states its answers against the members' fields at its start. Apart from the callbacks, whose effects are not modelled, the only writes are those of the box test. It rewrites derived fields from fields it never changes (`Contain.BoxedIdempotent`), so later tests see the same answers (`Groups.RectangleHitTouched`).
- **Flags the sweep checks.** The sweep checks the member's bump and d20 flags, not the target's. A target without the bump flag passes the box test as long as the member has it.
- **Derived fields the hit tests read.** `hitTestRectangle` recomputes the centre and half extents of both arguments before it compares them. `hitTestCircle` reads `radius` as it stands. `hitTestCircleRectangle` places the circle by the box's stored `halfWidth` and `halfHeight`, taken as absolute values. The corner columns lie one unit further out than the box's row.

## Model

| member | source | states |
|---|---|---|
| Contain.BoxedIdempotent | src/contain.ts:6-14 | deriving the centre and half extents twice equals deriving them once, and it keeps every field the tests read from |
| Contain.RectangleHitIsOverlap | src/contain.ts:16-22 | the box test hits exactly when the exact boxes overlap as open intervals on both axes, and misses whenever a position or size is NaN or absent |
| Contain.RectangleHitSymmetric | src/contain.ts:16-22 | the box test does not depend on argument order |
| Contain.TouchingBoxesMiss | src/contain.ts:16-22 | boxes that only share an edge, vertical or horizontal, do not hit, in either order |
| Contain.SameCentreBoxesHit | src/contain.ts:16-22 | two boxes of positive size with the same centre always hit |
| Contain.HitTestRectangle | src/contain.ts:3-23 | throws BumpMissing exactly when neither sprite has the bump flag; otherwise both sprites get their derived box fields, nothing else changes, and the result is the overlap test |
| Contain.WriteBox | src/contain.ts:6-14 | the sprite's new fields are its old ones with the centre and half extents derived |
| Contain.SqrtBelowIsRootBelow | src/contain.ts:33-41 | the square-root-free comparison agrees with `sqrt(d2) < bound` for the non-negative root |
| Contain.CircleHitIsDistanceTest | src/contain.ts:33-41 | the circle test hits exactly when the Euclidean centre distance is below the sum of the radii |
| Contain.TouchingCirclesMiss | src/contain.ts:33-41 | circles whose centres are exactly the sum of the radii apart do not hit |
| Contain.UndefinedRadiusMisses | src/contain.ts:33-41 | an absent or NaN radius makes the circle test miss, in both orders |
| Contain.CircleHitSymmetric | src/contain.ts:33-41 | the circle test does not depend on argument order |
| Contain.CircleGlobalIsLocalOnGlobalCoordinates | src/contain.ts:31-38 | the global flag only substitutes the global position for the local one |
| Contain.HitTestCircle | src/contain.ts:25-43 | throws BumpMissing exactly when neither sprite has the flag, otherwise returns the circle test |
| Contain.HitTestCirclePoint | src/contain.ts:118-132 | throws without the circle's flag; otherwise the point object becomes a diameter-1 circle and the local circle test is returned |
| Contain.WritePoint | src/contain.ts:121-130 | the point object's new fields are the point-circle fields and nothing else changes |
| Contain.PointIsHalfUnitCircle | src/contain.ts:121-131 | a point at (px, py) hits exactly when the distance to (px+0.5, py+0.5) is below the radius plus 0.5 |
| Contain.CornerIsBeyondTolerance | src/contain.ts:62-84 | a corner region means outside the box's row and more than one unit outside its column |
| Contain.SideBandIsRow | src/contain.ts:62-84 | the left and right middle bands are exactly the box's row, edges included, split by side |
| Contain.CircleRectangleErrors | src/contain.ts:45-116 | the by-region test throws exactly when the circle lacks the bump flag and either the box lacks it too or the circle lies in a corner region |
| Contain.CircleRectangleReportsRegion | src/contain.ts:86-115 | a returned label is the circle's region, and a middle band reports a hit exactly when the boxes overlap |
| Contain.HitTestCircleRectangle | src/contain.ts:45-116 | result is the by-region outcome; a middle band writes the box fields onto both sprites, a corner changes neither |
| Entities.Sprite.Blank | src/contain.ts:89 | an empty object literal has no geometry, no bundles, no flags and no tags |
| Sprites.ApplyPropHolds | src/sprite.ts:81-83 | after `sprite[key] = value` the sprite carries that value under that key |
| Sprites.SetNumKeepsOthers | src/sprite.ts:81-83 | writing one numeric property leaves every other numeric property unchanged |
| Sprites.SetNumKeepsRest | src/sprite.ts:81-83 | a numeric write changes only position, size and bounds |
| Sprites.ApplyPropKeepsOthers | src/sprite.ts:81-83 | writing one property keeps every other property's value |
| Sprites.ContentCopied | src/sprite.ts:80-84 | after the copy loop the sprite carries every entry of the content object |
| Sprites.CollisionFillsFalsyFields | src/sprite.ts:103-137 | each bounds field is kept when truthy and filled with its default when falsy, with the line-110 write into centerX; only the bounds and the bump flag change |
| Sprites.CollisionIdempotent | src/sprite.ts:100-140 | applying the collision bundle twice is applying it once |
| Sprites.WithVelocity | src/sprite.ts:148-244 | a sprite with a velocity is unchanged; one without gets the default velocity and the flag |
| Sprites.WithRpg | src/sprite.ts:252-364 | a sprite with a base is unchanged; one without gets the default stat block and the d20 flag |
| Sprites.WithCritical | src/sprite.ts:372-383 | a sprite with a control object is unchanged; one without gets an empty player list and the flag |
| Sprites.DefaultBaseIsFresh | src/sprite.ts:256-271 | the default stat block is level 1 of a maximum of 10, with HP 8 equal to max HP and the life die, and armour 10 equal to its maximum |
| Sprites.OtherBundlesIdempotent | src/sprite.ts:148-383 | a second application of the velocity, d20 or critical bundle changes nothing |
| Sprites.DefaultOptionsDecorate | src/sprite.ts:73-76 | create without options applies exactly the collision and velocity bundles, adding no stat block and no control object |
| Sprites.CollisionKeeps | src/sprite.ts:103-137 | the collision bundle keeps every content entry it does not overwrite |
| Sprites.OtherBundlesKeep | src/sprite.ts:148-383 | the velocity, d20 and critical bundles keep every kept content entry |
| Sprites.BundlesKeep | src/sprite.ts:86-89 | no combination of bundles overwrites a kept content entry |
| Sprites.BundlesInstall | src/sprite.ts:86-89 | each requested bundle leaves its flag or object in place after the later ones run |
| Sprites.DecorateKeepsContent | src/sprite.ts:71-92 | create's result carries every kept content entry and every requested bundle |
| Sprites.PSprite.constructor | src/sprite.ts:71-78 | a new decorator holds no sprite |
| Sprites.PSprite.Create | src/sprite.ts:71-92 | returns the same sprite object, remembered, whose fields are the content then the bundles in order |
| Sprites.PSprite.AddCollisionProperties | src/sprite.ts:100-140 | throws SpriteMissing without a sprite, otherwise applies the collision bundle |
| Sprites.PSprite.AddVelocityProperties | src/sprite.ts:148-244 | throws SpriteMissing without a sprite, otherwise applies the velocity bundle |
| Sprites.PSprite.AddOpenRPGProperties | src/sprite.ts:252-364 | throws SpriteMissing without a sprite, otherwise applies the d20 bundle |
| Sprites.PSprite.AddCriticalProperties | src/sprite.ts:372-383 | applies the critical bundle to the remembered sprite |
| Sprites.AssignProp | src/sprite.ts:82 | one content entry written onto the sprite |
| Sprites.AssignNum | src/sprite.ts:82 | one numeric property written, and nothing else |
| Sprites.WriteBounds | src/sprite.ts:103-135 | the sprite's bounds become the filled bounds, and nothing else changes (the bump flag is set by the caller, src/sprite.ts:137) |
| Sprites.SetVelocity | src/sprite.ts:157-160 | x and y of the velocity become the value; nothing else changes |
| Sprites.Toggled | src/sprite.ts:162 | movement is negated and x and y are kept |
| Sprites.ToggledTwice | src/sprite.ts:161-163 | switching movement twice restores the velocity |
| Sprites.SetMovement | src/sprite.ts:161-163 | the velocity's movement is switched; nothing else changes |
| Sprites.LevelUp | src/sprite.ts:322-332 | throws LevelOverflow exactly at or above the maximum; otherwise level +1, HP and max HP both + the roll, and every other field of the stat block and of its life unchanged |
| Sprites.LevelUpsBounded | src/sprite.ts:322-332 | repeated level-ups land at min(level + count, levelMax), keep the missing life, and add between one and diceHP life per level gained |
| Sprites.LevelUpSprite | src/sprite.ts:322-332 | on the sprite: the same refusal, or the levelled base and nothing else changed |
| Sprites.RollAttack | src/sprite.ts:333-335 | the attack roll lies in rollAttack+1 .. rollAttack+20 |
| Sprites.RollAttackCoversRange | src/sprite.ts:333-335 | every value of that range is reached by some draw |
| Sprites.RollDamage | src/sprite.ts:336-342 | for a positive roll product the damage lies in bonus+1 .. bonus+count·faces |
| Sprites.ReceiveAttackThresholds | src/sprite.ts:343-346 | armour no higher than 1+bonus is always hit, above 20+bonus never, and hitting is monotone in the roll |
| Sprites.EHit | src/sprite.ts:347-357 | "rectangle" runs the box test with its writes, "circle" the local circle test with no writes, any other type returns undefined and writes nothing |
| Groups.DefaultAreaDoubles | src/group.ts:118-120 | without an area option, the minimum is the container size and the maximum exactly double it |
| Groups.PairSprites | src/group.ts:69-72 | the keyed array holds the pairs' sprites in order |
| Groups.DistinctSpritesGetTheirKeys | src/group.ts:69-72 | when no sprite is paired twice, each member is tagged with its own pair's key |
| Groups.LaterPairWins | src/group.ts:69-72 | a sprite paired twice keeps the key of its later pair |
| Groups.WithKeySound | src/group.ts:210 | the keyed filter returns members that carry the tag |
| Groups.WithoutKeySound | src/group.ts:249 | the removal filter returns members that lack the tag |
| Groups.WithKeyEmpty | src/group.ts:210 | the filter is empty exactly when no member carries the tag |
| Groups.WithKeySingle | src/group.ts:210-215 | the filter has one element exactly when one position carries the tag, and that element is the member there |
| Groups.WithKeyAt | src/group.ts:210 | when only position i carries the tag, the filter is that one member |
| Groups.WithKeyOne | src/group.ts:210-211 | a one-element filter comes from the single position carrying the tag |
| Groups.WithoutKeyDropsOne | src/group.ts:249 | when only position i carries the tag, removal drops exactly that position and keeps the order |
| Groups.WithoutKeyKeepsAll | src/group.ts:249 | when no member carries the tag, removal keeps the whole list |
| Groups.CallsFor | src/group.ts:298-300 | one hit invokes every callback that is a function, in array order, with that member |
| Groups.Sweep | src/group.ts:286-304 | the sweep only tests and invokes for positions of the list |
| Groups.SweepUnfold | src/group.ts:287 | the sweep over one more member is one more step |
| Groups.SweepFailsOnUnflagged | src/group.ts:288-289 | the sweep throws exactly when some member lacks the bump or d20 flag |
| Groups.SweepCallsAreHits | src/group.ts:288-301 | every invocation is of a function callback for a flagged, unskipped member that hits the target, with all earlier members flagged |
| Groups.SweepCallsEveryHit | src/group.ts:287-301 | every function callback is invoked on each unskipped member that hits, provided it and every member before it are flagged, even when a later member makes the sweep throw |
| Groups.SweepCallsHit | src/group.ts:287-301 | one such member and function callback: the invocation is in the sweep's trace |
| Groups.SweepCallsInOrder | src/group.ts:287-300 | invocations run member by member in list order, and callbacks in array order |
| Groups.NoHitNoCalls | src/group.ts:297 | with no member hitting the target, no callback runs |
| Groups.SweepStopsAtFailure | src/group.ts:288-289 | after a throw, later members change nothing |
| Groups.SweepFailsAt | src/group.ts:288-289 | once the sweep has thrown, it stays thrown |
| Groups.Touch | src/contain.ts:6-14 | the box writes keep position, size, flags and tags |
| Groups.HeldAtNone | src/group.ts:287 | before any test, no member has been written to |
| Groups.HeldAtAdd | src/group.ts:297 | testing one more position writes to exactly that member |
| Groups.RectangleHitTouched | src/group.ts:297 | the box test on written-to sprites gives the same answer as on their start fields |
| Groups.SweptAtStart | src/group.ts:286 | before the sweep every sprite has its start fields |
| Groups.SweptFieldsKept | src/group.ts:288-294 | the flags and tags the sweep reads stay as they were at the start |
| Groups.Probe | src/group.ts:297 | one member's E_hit box test returns the start-state answer and writes only box fields |
| Groups.SweepMembers | src/group.ts:287-303 | the loop's outcome, trace and writes are those of Sweep on the start fields |
| Groups.Visit | src/group.ts:288-302 | one member's visit is one step of Sweep |
| Groups.RunCallbacks | src/group.ts:298-300 | the callback loop's trace is exactly CallsFor |
| Groups.TagPairs | src/group.ts:66-72 | a new array of the paired sprites, each tagged with the key of its last pair |
| Groups.Arrange | src/group.ts:101-116 | size set when given; throws WrongPosition exactly for a position that is not of length two; the calls are the position then one addChild per member |
| Groups.AddChildren | src/group.ts:114-116 | one addChild per member, in order; the size is kept |
| Groups.SimpleGroup.constructor | src/group.ts:50-51 | a zero area, both modes off |
| Groups.SimpleGroup.Init | src/group.ts:53-57 | keyed set-up for a keyed list, indexed set-up otherwise, with their marks, tags and container effects |
| Groups.SimpleGroup.KeySetter | src/group.ts:65-75 | a fresh array of the paired sprites, tagged, keyed mode on, then setGroup |
| Groups.SimpleGroup.DefaultSetter | src/group.ts:82-87 | the caller's array itself, indexed mode on, then setGroup |
| Groups.SimpleGroup.SetGroup | src/group.ts:94-124 | members marked unless cleanControl; the container sized, positioned and filled; the area given or derived, kept on a throw |
| Groups.SimpleGroup.SetGroupInSprite | src/group.ts:129-131 | every member gets `_simpleGroupAdded` and nothing else changes |
| Groups.SimpleGroup.Append | src/group.ts:138-142 | the group's container is added to the stage and the group returned |
| Groups.SimpleGroup.GetSprites | src/group.ts:148-150 | the stored array itself |
| Groups.SimpleGroup.SetSprites | src/group.ts:157-159 | indexed set-up on the given array, keyed mode left as it was |
| Groups.SimpleGroup.GetContainer | src/group.ts:165-167 | the stored container |
| Groups.SimpleGroup.SetContainer | src/group.ts:173-175 | only the container changes |
| Groups.SimpleGroup.GetArea | src/group.ts:181-183 | the stored area |
| Groups.SimpleGroup.SetArea | src/group.ts:189-191 | the next getArea returns the area set; nothing else changes |
| Groups.SimpleGroup.GetSprite | src/group.ts:198-223 | a returned sprite is a member of the group |
| Groups.SimpleGroup.GetSpriteCases | src/group.ts:198-223 | the two mode-mismatch errors; keyed lookup succeeds exactly when one position carries the tag; indexed lookup fails exactly outside the array |
| Groups.SimpleGroup.Add | src/group.ts:230-239 | the sprite is appended, with the pair's key in keyed mode or length−1 in indexed mode; a bare sprite in keyed mode throws a TypeError and changes nothing |
| Groups.SimpleGroup.Remove | src/group.ts:245-263 | a failed lookup throws its error and changes nothing; otherwise the sprite leaves the list and the container and is hidden and destroyed; in keyed mode the replaced array keeps its contents; in every case the container keeps its size |
| Groups.SimpleGroup.RemoveKeyedDropsOnePosition | src/group.ts:245-253 | keyed removal drops exactly the one tagged position and keeps the others in order |
| Groups.SimpleGroup.EHitEffect | src/group.ts:286-304 | outcome and invocation trace are those of Sweep on the start fields, and only box fields of tested members and the target are written |
| Groups.CreateGroup | src/group.ts:406-408 | throws WrongPosition exactly for a malformed position; otherwise a new valid group in the requested mode with the given or derived area; on both outcomes the members are tagged and marked and the container sized, positioned and given every member |

## Left out

- The debugging border (`A_debugger` and `__DEBUGGER_LINE` in `src/group.ts`) draws PIXI graphics. Rendering is not modelled.
- `A_knockbackHit` of the velocity bundle runs a GSAP animation timeline. This is animation over time, which is not modelled.
- `Math.random`: every draw is a parameter of the closure that uses it, constrained to the values the draw can take.
- Floating point: numbers are exact reals, and `Math.sqrt` is replaced by an equivalent comparison of squares. Rounding and infinities are not modelled.
- PIXI recomputes `width` and `height` of a container from its children. The model keeps the size a container is given.
- Callbacks of `E_hitEffect` are recorded as invocations; what they do is not modelled. The sweep's answers are stated against the start fields, so they hold only for callbacks that write nothing the box test reads. A callback that moves a later member or the target changes that member's answer in the source.
- The area is a value: aliasing between the area object given in the options and later mutations of it is not modelled.
- A `base.E_hit` replaced by user code is not modelled; the sweep always runs the library's own `E_hit`. A member that has the d20 flag but no base is not modelled either.
- Of the d20 stat block, only level, life, armour and damage are modelled. The resistance, action and inventory entries are inert data.
- Content entries that name the flags or tags the model keeps in their own fields are excluded (`WellFormedContent`).
- Null or undefined entries in a member array are not modelled.
- Remove: every member is taken to be a PIXI display object with a `destroy` method. For a plain object without one, `_sprite?.destroy()` (`src/group.ts:253`, `261`) throws a TypeError after the member has already left the list and the container; the model always records the sprite as destroyed.
- SetVelocity, SetMovement and LevelUpSprite: a sprite whose `velocity` or `base` object was deleted after decoration is not modelled. The closures read that object without a check (`src/sprite.ts:158`, `162`, `323`), so the source throws a TypeError there.
- Create: `create(undefined)` is not modelled; its sprite parameter is an object. In the source that call reaches the `SpriteMissing` throw of `addCollisionProperties`, `addVelocityProperties` or `addOpenRPGProperties` (`src/sprite.ts:101`, `149`, `253`). With only `critical` requested it throws a TypeError at line 373, and with no bundle requested it returns undefined. Those branches are modelled in the three methods, but `Create` never reaches them.
- Add: an indexed group given a `[key, sprite]` pair is not modelled. The source writes `__NUMBER_KEY` onto the pair array and pushes the array as a member (`src/group.ts:236-237`); the model's members are sprites.
- Init and CreateGroup: a `key` option that does not match the shape of the list is not modelled. With `key` set and a non-empty plain sprite array, `src/group.ts:70` throws a TypeError at the first element; without it, a pair array becomes the member array (`src/group.ts:83`).
- `Sprites.LevelUps`: carries no contract of its own; its properties are in `Sprites.LevelUpsBounded`.
- `Sprites.ReceiveAttack`: a predicate; its properties are in `Sprites.ReceiveAttackThresholds`.
- `src/types.ts`, `src/factory.ts`, `src/index.ts` and the test files are not part of this model.
