/** The sprite record the library decorates and tests: the fields of
    `PIXISprite` that the hit tests, the decoration bundles and the group
    read or write. */
module Entities {
  import opened Js

  /** A PIXI anchor (`sprite.anchor.x`, `sprite.anchor.y`). */
  datatype Anchor = Anchor(ax: real, ay: real)

  /** The velocity bundle: `movement`, `x`, `y`. Its closures are the
      methods `SetVelocity` and `SetMovement` of module Sprites. */
  datatype Velocity = Velocity(movement: bool, vx: Num, vy: Num)

  datatype Life = Life(hp: int, minHP: int, maxHP: int, diceHP: int, temporaryHP: int)

  datatype Armor = Armor(ca: int, minCA: int, maxCA: int, temporaryCA: int)

  /** `damage`: `rollAttack`, `roll: [count, faces]`, `bonus`, `type`. */
  datatype Damage = Damage(rollAttack: int, rollCount: int, rollFaces: int, bonus: int, kind: string)

  /** The d20 stat block (`sprite.base`). Its closures are functions and
      methods of module Sprites. */
  datatype RpgBase = RpgBase(level: int, levelMax: int, life: Life, armor: Armor, damage: Damage)

  /** The critical bundle (`sprite.control`). */
  datatype Control = Control(players: seq<string>, onlyGM: bool)

  /** A value of a property the model does not interpret. */
  datatype Value = Number(n: Num) | Boolean(b: bool) | Text(s: string)

  /** Position and size: `x`, `y`, `width`, `height`, and the global
      position `gx`, `gy`. */
  datatype Geometry = Geometry(x: Num, y: Num, width: Num, height: Num, gx: Num, gy: Num)

  /** The fields the hit tests derive and read: centre, half extents,
      anchor offsets, `radius` and `diameter`. */
  datatype Bounds = Bounds(
    centerX: Num, centerY: Num, halfWidth: Num, halfHeight: Num,
    xAnchorOffset: Num, yAnchorOffset: Num, radius: Num, diameter: Num)

  /** The marker flags: `_bumpPropertiesAdded`, `_velocityPropertiesAdded`,
      `_d20RPGPropertiesAdded`, `_criticalPropertiesAdded`, `_simpleGroupAdded`. */
  datatype Marks = Marks(bump: bool, velocity: bool, d20: bool, critical: bool, simpleGroup: bool)

  /** The state of one sprite object. */
  datatype Fields = Fields(
    geo: Geometry, bounds: Bounds, anchor: Option<Anchor>, circular: bool,
    velocity: Option<Velocity>, base: Option<RpgBase>, control: Option<Control>,
    marks: Marks, groupKey: Option<string>, numberKey: Option<int>,
    visible: bool, destroyed: bool, extra: map<string, Value>)

  const NoGeometry := Geometry(NaN, NaN, NaN, NaN, NaN, NaN)
  const NoBounds := Bounds(NaN, NaN, NaN, NaN, NaN, NaN, NaN, NaN)
  const NoMarks := Marks(false, false, false, false, false)

  /** The fields of an empty object literal `{}`. */
  const BlankFields := Fields(
    NoGeometry, NoBounds, None, false, None, None, None,
    NoMarks, None, None, false, false, map[])

  /** A sprite object. Absent number fields read as NaN, absent flags as
      false, absent bundles and tags as None. `destroyed` records that the
      rendering engine's `destroy()` was called on it. */
  class Sprite {
    var geo: Geometry
    var bounds: Bounds
    var anchor: Option<Anchor>
    var circular: bool
    var velocity: Option<Velocity>
    var base: Option<RpgBase>
    var control: Option<Control>
    var marks: Marks
    var groupKey: Option<string>   // __GROUP_KEY
    var numberKey: Option<int>     // __NUMBER_KEY
    var visible: bool
    var destroyed: bool
    var extra: map<string, Value>

    /** The current value of every field. */
    function Snapshot(): Fields
      reads this
    {
      Fields(geo, bounds, anchor, circular, velocity, base, control,
             marks, groupKey, numberKey, visible, destroyed, extra)
    }

    /** An empty object literal `{}`. */
    constructor Blank()
      ensures Snapshot() == BlankFields
    {
      geo, bounds, anchor, circular := NoGeometry, NoBounds, None, false;
      velocity, base, control := None, None, None;
      marks, groupKey, numberKey := NoMarks, None, None;
      visible, destroyed, extra := false, false, map[];
    }
  }
}
