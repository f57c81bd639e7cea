/** The JavaScript values the library computes with, and the errors it throws. */
module Js {

  datatype Option<+T> = None | Some(value: T)

  /** A JavaScript number as the library reads it from an object field.
      `NaN` stands both for the IEEE NaN and for a field that is absent
      (`undefined`): arithmetic on either gives NaN, every comparison with
      either is false and both are falsy, so no code path of the library
      can tell them apart. Rounding and infinities are not modelled. */
  datatype Num = NaN | Fin(v: real)

  function Add(a: Num, b: Num): Num {
    if a.Fin? && b.Fin? then Fin(a.v + b.v) else NaN
  }

  function Sub(a: Num, b: Num): Num {
    if a.Fin? && b.Fin? then Fin(a.v - b.v) else NaN
  }

  function Mul(a: Num, b: Num): Num {
    if a.Fin? && b.Fin? then Fin(a.v * b.v) else NaN
  }

  /** `a / 2` */
  function Half(a: Num): Num {
    if a.Fin? then Fin(a.v / 2.0) else NaN
  }

  /** `Math.abs(a)` */
  function Abs(a: Num): Num {
    if a.NaN? then NaN else if a.v < 0.0 then Fin(-a.v) else a
  }

  /** `a < b` */
  predicate Lt(a: Num, b: Num) {
    a.Fin? && b.Fin? && a.v < b.v
  }

  /** `a > b` */
  predicate Gt(a: Num, b: Num) {
    a.Fin? && b.Fin? && a.v > b.v
  }

  /** `!a`: true of undefined, NaN and 0. */
  predicate Falsy(a: Num) {
    a.NaN? || a.v == 0.0
  }

  /** The errors the library throws, one per message, and the runtime's
      TypeError. */
  datatype Error =
    | BumpMissing            // 'pixi-factory: bump properties not exists'
    | BumpOrD20Missing       // 'pixi-factory: bump or d20 properties not added in E_hitEffect sprites'
    | KeyNotEnabled          // 'pixi-sprite: key as not enable, in this group, go through the options key: true'
    | NumberWhileKeyed       // 'pixi-sprite: not to search for the number while is key enabled.'
    | NotExistsOrDuplicated  // 'pixi-factory: not exists element or a duplicated element in a array'
    | SpriteNotExists        // 'pixi-factory: sprite not exists in group'
    | WrongPosition          // 'pixi-factory: options.position is wrong array, correct example: position = [50, 50]'
    | SpriteMissing          // 'pixi-factory: sprite as null or undefined.'
    | LevelOverflow          // 'pixi-factory: sprite overflow max level'
    | TypeError              // the runtime's TypeError: a property written on undefined

  /** A call that returns a value or throws. */
  datatype Result<+T> = Ok(value: T) | Err(error: Error)

  /** A call that returns nothing or throws. */
  datatype Outcome = Pass | Fail(error: Error)
}
