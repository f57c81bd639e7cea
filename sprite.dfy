/** Sprite decoration: copying content entries onto a sprite, the four
    optional property bundles with their flags, and the closures the
    velocity and d20 bundles carry. */
module Sprites {
  import opened Js
  import opened Entities
  import Contain

  // ---------------------------------------------------------------------
  // Content entries
  // ---------------------------------------------------------------------

  /** The numeric sprite fields a content entry can set. */
  datatype NumField =
    | X | Y | Width | Height | Gx | Gy
    | CenterX | CenterY | HalfWidth | HalfHeight
    | XAnchorOffset | YAnchorOffset | Radius | Diameter
  {
    /** The property name on the sprite object. */
    function Name(): string {
      match this
      case X => "x"
      case Y => "y"
      case Width => "width"
      case Height => "height"
      case Gx => "gx"
      case Gy => "gy"
      case CenterX => "centerX"
      case CenterY => "centerY"
      case HalfWidth => "halfWidth"
      case HalfHeight => "halfHeight"
      case XAnchorOffset => "xAnchorOffset"
      case YAnchorOffset => "yAnchorOffset"
      case Radius => "radius"
      case Diameter => "diameter"
    }
  }

  function GetNum(f: Fields, n: NumField): Num {
    match n
    case X => f.geo.x
    case Y => f.geo.y
    case Width => f.geo.width
    case Height => f.geo.height
    case Gx => f.geo.gx
    case Gy => f.geo.gy
    case CenterX => f.bounds.centerX
    case CenterY => f.bounds.centerY
    case HalfWidth => f.bounds.halfWidth
    case HalfHeight => f.bounds.halfHeight
    case XAnchorOffset => f.bounds.xAnchorOffset
    case YAnchorOffset => f.bounds.yAnchorOffset
    case Radius => f.bounds.radius
    case Diameter => f.bounds.diameter
  }

  function SetNum(f: Fields, n: NumField, v: Num): Fields {
    match n
    case X => f.(geo := f.geo.(x := v))
    case Y => f.(geo := f.geo.(y := v))
    case Width => f.(geo := f.geo.(width := v))
    case Height => f.(geo := f.geo.(height := v))
    case Gx => f.(geo := f.geo.(gx := v))
    case Gy => f.(geo := f.geo.(gy := v))
    case CenterX => f.(bounds := f.bounds.(centerX := v))
    case CenterY => f.(bounds := f.bounds.(centerY := v))
    case HalfWidth => f.(bounds := f.bounds.(halfWidth := v))
    case HalfHeight => f.(bounds := f.bounds.(halfHeight := v))
    case XAnchorOffset => f.(bounds := f.bounds.(xAnchorOffset := v))
    case YAnchorOffset => f.(bounds := f.bounds.(yAnchorOffset := v))
    case Radius => f.(bounds := f.bounds.(radius := v))
    case Diameter => f.(bounds := f.bounds.(diameter := v))
  }

  /** One entry of the `content` option: a property name and its value. */
  datatype Prop =
    | NumProp(field: NumField, n: Num)
    | CircularProp(circular: bool)
    | AnchorProp(anchor: Option<Anchor>)
    | VelocityProp(velocity: Option<Velocity>)
    | BaseProp(base: Option<RpgBase>)
    | ControlProp(control: Option<Control>)
    | Other(key: string, value: Value)

  /** Which property an entry names. */
  datatype PropKey =
    | NumKey(field: NumField) | CircularKey | AnchorKey
    | VelocityKey | BaseKey | ControlKey | OtherKey(name: string)

  function Key(p: Prop): PropKey {
    match p
    case NumProp(field, _) => NumKey(field)
    case CircularProp(_) => CircularKey
    case AnchorProp(_) => AnchorKey
    case VelocityProp(_) => VelocityKey
    case BaseProp(_) => BaseKey
    case ControlProp(_) => ControlKey
    case Other(key, _) => OtherKey(key)
  }

  /** The property names the model gives their own field. */
  const ModelledNames: set<string> := {
    "x", "y", "width", "height", "gx", "gy", "centerX", "centerY",
    "halfWidth", "halfHeight", "xAnchorOffset", "yAnchorOffset", "radius", "diameter",
    "circular", "anchor", "velocity", "base", "control",
    "_bumpPropertiesAdded", "_velocityPropertiesAdded", "_d20RPGPropertiesAdded",
    "_criticalPropertiesAdded", "_simpleGroupAdded", "__GROUP_KEY", "__NUMBER_KEY", "visible"
  }

  /** The entries of an object: no name twice, and an entry of no modelled
      field is not named like one. */
  predicate WellFormedContent(c: seq<Prop>) {
    (forall i, j :: 0 <= i < j < |c| ==> Key(c[i]) != Key(c[j])) &&
    (forall i :: 0 <= i < |c| ==> c[i].Other? ==> c[i].key !in ModelledNames)
  }

  /** `sprite[key] = value` for one entry. */
  function ApplyProp(f: Fields, p: Prop): Fields {
    match p
    case NumProp(field, n) => SetNum(f, field, n)
    case CircularProp(b) => f.(circular := b)
    case AnchorProp(a) => f.(anchor := a)
    case VelocityProp(v) => f.(velocity := v)
    case BaseProp(b) => f.(base := b)
    case ControlProp(c) => f.(control := c)
    case Other(key, value) => f.(extra := f.extra[key := value])
  }

  /** The sprite carries the entry's value under the entry's name. */
  predicate Holds(f: Fields, p: Prop) {
    match p
    case NumProp(field, n) => GetNum(f, field) == n
    case CircularProp(b) => f.circular == b
    case AnchorProp(a) => f.anchor == a
    case VelocityProp(v) => f.velocity == v
    case BaseProp(b) => f.base == b
    case ControlProp(c) => f.control == c
    case Other(key, value) => key in f.extra && f.extra[key] == value
  }

  /** The entries applied in order. */
  function ApplyAll(f: Fields, c: seq<Prop>): Fields
    decreases |c|
  {
    if c == [] then f else ApplyProp(ApplyAll(f, c[..|c| - 1]), c[|c| - 1])
  }

  lemma ApplyPropHolds(f: Fields, p: Prop)
    ensures Holds(ApplyProp(f, p), p)
  {
  }

  /** Writing one numeric field leaves every other one as it was. */
  lemma SetNumKeepsOthers(f: Fields, a: NumField, b: NumField, v: Num)
    requires a != b
    ensures GetNum(SetNum(f, a, v), b) == GetNum(f, b)
  {
    match a
    case X =>
    case Y =>
    case Width =>
    case Height =>
    case Gx =>
    case Gy =>
    case CenterX =>
    case CenterY =>
    case HalfWidth =>
    case HalfHeight =>
    case XAnchorOffset =>
    case YAnchorOffset =>
    case Radius =>
    case Diameter =>
  }

  /** A numeric write changes only the geometry and the bounds. */
  lemma SetNumKeepsRest(f: Fields, a: NumField, v: Num)
    ensures SetNum(f, a, v).(geo := f.geo, bounds := f.bounds) == f
  {
    match a
    case X =>
    case Y =>
    case Width =>
    case Height =>
    case Gx =>
    case Gy =>
    case CenterX =>
    case CenterY =>
    case HalfWidth =>
    case HalfHeight =>
    case XAnchorOffset =>
    case YAnchorOffset =>
    case Radius =>
    case Diameter =>
  }

  /** Writing one property leaves every other property as it was. */
  lemma ApplyPropKeepsOthers(f: Fields, q: Prop, p: Prop)
    requires Key(p) != Key(q) && Holds(f, p)
    ensures Holds(ApplyProp(f, q), p)
  {
    if q.NumProp? {
      SetNumKeepsRest(f, q.field, q.n);
      if p.NumProp? {
        SetNumKeepsOthers(f, q.field, p.field, q.n);
      }
    }
  }

  /** After the copy loop the sprite carries every entry of the content. */
  lemma {:induction false} ContentCopied(f: Fields, c: seq<Prop>)
    requires WellFormedContent(c)
    ensures forall i :: 0 <= i < |c| ==> Holds(ApplyAll(f, c), c[i])
    decreases |c|
  {
    if c != [] {
      var init, last := c[..|c| - 1], c[|c| - 1];
      assert WellFormedContent(init) by {
        forall i, j | 0 <= i < j < |init| ensures Key(init[i]) != Key(init[j]) {
          assert init[i] == c[i] && init[j] == c[j];
        }
      }
      ContentCopied(f, init);
      forall i | 0 <= i < |c| ensures Holds(ApplyAll(f, c), c[i]) {
        if i < |c| - 1 {
          assert init[i] == c[i];
          ApplyPropKeepsOthers(ApplyAll(f, init), last, c[i]);
        } else {
          ApplyPropHolds(ApplyAll(f, init), last);
        }
      }
    }
  }

  // ---------------------------------------------------------------------
  // The bundles, as functions of the sprite's fields
  // ---------------------------------------------------------------------

  /** `size × anchor` when the sprite has an anchor, else 0. */
  function AnchorOffset(size: Num, anchor: Option<Anchor>, horizontal: bool): Num {
    if anchor.None? then Fin(0.0)
    else Mul(size, Fin(if horizontal then anchor.value.ax else anchor.value.ay))
  }

  /** The bounds after addCollisionProperties (src/sprite.ts:103-135) as
      written: each step fills its field only when the field is falsy, and
      the step guarded by `centerY` writes `y + height/2` into `centerX`. */
  function FillBounds(g: Geometry, anchor: Option<Anchor>, circular: bool, b: Bounds): Bounds {
    var b1 := if Falsy(b.centerX) then b.(centerX := Add(g.x, Half(g.width))) else b;
    var b2 := if Falsy(b1.centerY) then b1.(centerX := Add(g.y, Half(g.height))) else b1;
    var b3 := if Falsy(b2.halfWidth) then b2.(halfWidth := Half(g.width)) else b2;
    var b4 := if Falsy(b3.halfHeight) then b3.(halfHeight := Half(g.height)) else b3;
    var b5 := if Falsy(b4.xAnchorOffset)
      then b4.(xAnchorOffset := AnchorOffset(g.width, anchor, true)) else b4;
    var b6 := if Falsy(b5.yAnchorOffset)
      then b5.(yAnchorOffset := AnchorOffset(g.height, anchor, false)) else b5;
    if circular && Falsy(b6.radius) then b6.(radius := Half(g.width)) else b6
  }

  /** addCollisionProperties (src/sprite.ts:100-140): the bounds filled in
      and the bump flag set. */
  function WithCollision(f: Fields): Fields {
    f.(bounds := FillBounds(f.geo, f.anchor, f.circular, f.bounds),
       marks := f.marks.(bump := true))
  }

  /** What the collision bundle leaves in each field it touches: a truthy
      value is kept, a falsy one replaced by its default; `centerY` and
      `diameter` are never written, and `centerX` ends up as `y + height/2`
      whenever `centerY` was falsy. Only the bounds and the bump flag change. */
  lemma CollisionFillsFalsyFields(f: Fields)
    ensures var g := WithCollision(f);
      g.marks == f.marks.(bump := true) &&
      g.(bounds := f.bounds, marks := f.marks) == f &&
      g.bounds.centerY == f.bounds.centerY &&
      g.bounds.diameter == f.bounds.diameter &&
      g.bounds.centerX == (if Falsy(f.bounds.centerY) then Add(f.geo.y, Half(f.geo.height))
                           else if Falsy(f.bounds.centerX) then Add(f.geo.x, Half(f.geo.width))
                           else f.bounds.centerX) &&
      g.bounds.halfWidth == (if Falsy(f.bounds.halfWidth) then Half(f.geo.width)
                             else f.bounds.halfWidth) &&
      g.bounds.halfHeight == (if Falsy(f.bounds.halfHeight) then Half(f.geo.height)
                              else f.bounds.halfHeight) &&
      g.bounds.xAnchorOffset == (if Falsy(f.bounds.xAnchorOffset)
                                 then AnchorOffset(f.geo.width, f.anchor, true)
                                 else f.bounds.xAnchorOffset) &&
      g.bounds.yAnchorOffset == (if Falsy(f.bounds.yAnchorOffset)
                                 then AnchorOffset(f.geo.height, f.anchor, false)
                                 else f.bounds.yAnchorOffset) &&
      g.bounds.radius == (if f.circular && Falsy(f.bounds.radius) then Half(f.geo.width)
                          else f.bounds.radius)
  {
  }

  /** Applying the collision bundle a second time changes nothing. */
  lemma CollisionIdempotent(f: Fields)
    ensures WithCollision(WithCollision(f)) == WithCollision(f)
  {
    CollisionFillsFalsyFields(f);
    CollisionFillsFalsyFields(WithCollision(f));
  }

  /** The velocity object the bundle installs: movement on, x = y = 1. */
  const DefaultVelocity := Velocity(true, Fin(1.0), Fin(1.0))

  /** addVelocityProperties (src/sprite.ts:148-244): only a sprite without
      `velocity` gets the default one and the flag. */
  function WithVelocity(f: Fields): (g: Fields)
    ensures f.velocity.Some? ==> g == f
    ensures f.velocity.None? ==>
      g == f.(velocity := Some(DefaultVelocity), marks := f.marks.(velocity := true))
  {
    if f.velocity.None? then f.(velocity := Some(DefaultVelocity), marks := f.marks.(velocity := true))
    else f
  }

  /** The stat block the d20 bundle installs. */
  const DefaultBase := RpgBase(
    1, 10,
    Life(8, 0, 8, 8, 0),
    Armor(10, 0, 10, 0),
    Damage(0, 1, 8, 0, "piercing"))

  /** addOpenRPGProperties (src/sprite.ts:252-364): only a sprite without
      `base` gets the default stat block and the flag. */
  function WithRpg(f: Fields): (g: Fields)
    ensures f.base.Some? ==> g == f
    ensures f.base.None? ==> g == f.(base := Some(DefaultBase), marks := f.marks.(d20 := true))
  {
    if f.base.None? then f.(base := Some(DefaultBase), marks := f.marks.(d20 := true)) else f
  }

  /** addCriticalProperties (src/sprite.ts:372-383). */
  function WithCritical(f: Fields): (g: Fields)
    ensures f.control.Some? ==> g == f
    ensures f.control.None? ==>
      g == f.(control := Some(Control([], false)), marks := f.marks.(critical := true))
  {
    if f.control.None? then f.(control := Some(Control([], false)), marks := f.marks.(critical := true))
    else f
  }

  /** The velocity, d20 and critical bundles are idempotent: a second
      application finds its object present and changes nothing. */
  lemma OtherBundlesIdempotent(f: Fields)
    ensures WithVelocity(WithVelocity(f)) == WithVelocity(f)
    ensures WithRpg(WithRpg(f)) == WithRpg(f)
    ensures WithCritical(WithCritical(f)) == WithCritical(f)
  {
  }

  /** The default stat block starts at level 1 of 10 with full life of 8. */
  lemma DefaultBaseIsFresh()
    ensures DefaultBase.level == 1 && DefaultBase.levelMax == 10 && DefaultBase.life.hp == 8
    ensures DefaultBase.level <= DefaultBase.levelMax
    ensures DefaultBase.life.hp == DefaultBase.life.maxHP == DefaultBase.life.diceHP
    ensures DefaultBase.armor.ca == DefaultBase.armor.maxCA == 10
  {
  }

  /** The options of `create`; without them only `bump` and `velocity` are on. */
  datatype SpriteOptions = SpriteOptions(
    bump: bool, velocity: bool, d20rpg: bool, critical: bool, content: seq<Prop>)

  const DefaultOptions := SpriteOptions(true, true, false, false, [])

  /** `create` without options installs the collision and velocity bundles
      and nothing else: no stat block and no control object appear. */
  lemma DefaultOptionsDecorate(f: Fields)
    ensures Decorate(f, DefaultOptions) == WithVelocity(WithCollision(f))
    ensures Decorate(f, DefaultOptions).marks.bump && Decorate(f, DefaultOptions).velocity.Some?
    ensures Decorate(f, DefaultOptions).base == f.base && Decorate(f, DefaultOptions).control == f.control
  {
  }

  /** The requested bundles in the order `create` applies them. */
  function Bundles(g: Fields, o: SpriteOptions): Fields {
    var g1 := if o.bump then WithCollision(g) else g;
    var g2 := if o.velocity then WithVelocity(g1) else g1;
    var g3 := if o.d20rpg then WithRpg(g2) else g2;
    if o.critical then WithCritical(g3) else g3
  }

  /** The fields after `create`: the content entries in order, then each
      bundle whose option is set. */
  function Decorate(f: Fields, o: SpriteOptions): Fields {
    Bundles(ApplyAll(f, o.content), o)
  }

  /** A content entry no bundle overwrites: anything but `centerX`, a falsy
      value in a field the collision bundle fills, or an absent bundle. */
  predicate Kept(p: Prop) {
    match p
    case NumProp(field, n) =>
      field != CenterX &&
      (field in {HalfWidth, HalfHeight, XAnchorOffset, YAnchorOffset, Radius} ==> !Falsy(n))
    case VelocityProp(v) => v.Some?
    case BaseProp(b) => b.Some?
    case ControlProp(c) => c.Some?
    case _ => true
  }

  /** The collision bundle keeps every kept entry. */
  lemma CollisionKeeps(g: Fields, p: Prop)
    requires Kept(p) && Holds(g, p)
    ensures Holds(WithCollision(g), p)
  {
    CollisionFillsFalsyFields(g);
    if p.NumProp? {
      var h := WithCollision(g);
      match p.field
      case X =>
      case Y =>
      case Width =>
      case Height =>
      case Gx =>
      case Gy =>
      case CenterX =>
      case CenterY =>
      case HalfWidth =>
      case HalfHeight =>
      case XAnchorOffset =>
      case YAnchorOffset =>
      case Radius =>
      case Diameter =>
    }
  }

  /** The other three bundles keep every kept entry. */
  lemma OtherBundlesKeep(g: Fields, p: Prop)
    requires Kept(p) && Holds(g, p)
    ensures Holds(WithVelocity(g), p) && Holds(WithRpg(g), p) && Holds(WithCritical(g), p)
  {
  }

  /** No bundle overwrites a kept entry, and each sets what it promises. */
  lemma BundlesKeep(g: Fields, o: SpriteOptions, p: Prop)
    requires Kept(p) && Holds(g, p)
    ensures Holds(Bundles(g, o), p)
  {
    var g1 := if o.bump then WithCollision(g) else g;
    var g2 := if o.velocity then WithVelocity(g1) else g1;
    var g3 := if o.d20rpg then WithRpg(g2) else g2;
    CollisionKeeps(g, p);
    OtherBundlesKeep(g1, p);
    OtherBundlesKeep(g2, p);
    OtherBundlesKeep(g3, p);
  }

  /** Each requested bundle leaves its flag or its object in place. */
  lemma BundlesInstall(g: Fields, o: SpriteOptions)
    ensures var h := Bundles(g, o);
      (o.bump ==> h.marks.bump) &&
      (o.velocity ==> h.velocity.Some?) &&
      (o.d20rpg ==> h.base.Some?) &&
      (o.critical ==> h.control.Some?)
  {
  }

  /** `create` hands back the sprite with every content entry still in place
      unless a bundle overwrote it, and each requested bundle installed. */
  lemma {:induction false} DecorateKeepsContent(f: Fields, o: SpriteOptions)
    requires WellFormedContent(o.content)
    ensures var g := Decorate(f, o);
      (forall i :: 0 <= i < |o.content| ==> Kept(o.content[i]) ==> Holds(g, o.content[i])) &&
      (o.bump ==> g.marks.bump) &&
      (o.velocity ==> g.velocity.Some?) &&
      (o.d20rpg ==> g.base.Some?) &&
      (o.critical ==> g.control.Some?)
  {
    ContentCopied(f, o.content);
    var g0 := ApplyAll(f, o.content);
    forall i | 0 <= i < |o.content| && Kept(o.content[i])
      ensures Holds(Decorate(f, o), o.content[i])
    {
      BundlesKeep(g0, o, o.content[i]);
    }
    BundlesInstall(g0, o);
  }

  // ---------------------------------------------------------------------
  // PSprite
  // ---------------------------------------------------------------------

  /** The decorator object; `current` is its `_sprite`. */
  class PSprite {
    var current: Sprite?

    constructor()
      ensures current == null
    {
      current := null;
    }

    /** create (src/sprite.ts:71-92): remembers the sprite, copies the
        content entries onto it, applies the requested bundles in the order
        bump, velocity, d20, critical, and returns the same object. */
    method Create(sprite: Sprite, options: SpriteOptions) returns (r: Sprite)
      modifies this, sprite
      ensures r == sprite && current == sprite
      ensures sprite.Snapshot() == Decorate(old(sprite.Snapshot()), options)
    {
      current := sprite;
      ghost var start := sprite.Snapshot();
      var content := options.content;
      for i := 0 to |content|
        invariant current == sprite
        invariant sprite.Snapshot() == ApplyAll(start, content[..i])
      {
        AssignProp(sprite, content[i]);
        assert content[..i + 1][..i] == content[..i];
      }
      assert content[..|content|] == content;
      var o: Outcome;
      if options.bump {
        o := AddCollisionProperties();
      }
      if options.velocity {
        o := AddVelocityProperties();
      }
      if options.d20rpg {
        o := AddOpenRPGProperties();
      }
      if options.critical {
        AddCriticalProperties();
      }
      r := current;
    }

    /** addCollisionProperties (src/sprite.ts:100-140). */
    method AddCollisionProperties() returns (o: Outcome)
      modifies current
      ensures current == null ==> o == Fail(SpriteMissing)
      ensures current != null ==>
        o == Pass && current.Snapshot() == WithCollision(old(current.Snapshot()))
    {
      if current == null {
        return Fail(SpriteMissing);
      }
      var s := current;
      WriteBounds(s);
      s.marks := s.marks.(bump := true);
      o := Pass;
    }

    /** addVelocityProperties (src/sprite.ts:148-244). */
    method AddVelocityProperties() returns (o: Outcome)
      modifies current
      ensures current == null ==> o == Fail(SpriteMissing)
      ensures current != null ==>
        o == Pass && current.Snapshot() == WithVelocity(old(current.Snapshot()))
    {
      if current == null {
        return Fail(SpriteMissing);
      }
      if current.velocity.None? {
        current.velocity := Some(DefaultVelocity);
        current.marks := current.marks.(velocity := true);
      }
      o := Pass;
    }

    /** addOpenRPGProperties (src/sprite.ts:252-364). */
    method AddOpenRPGProperties() returns (o: Outcome)
      modifies current
      ensures current == null ==> o == Fail(SpriteMissing)
      ensures current != null ==>
        o == Pass && current.Snapshot() == WithRpg(old(current.Snapshot()))
    {
      if current == null {
        return Fail(SpriteMissing);
      }
      if current.base.None? {
        current.base := Some(DefaultBase);
        current.marks := current.marks.(d20 := true);
      }
      o := Pass;
    }

    /** addCriticalProperties (src/sprite.ts:372-383); it reads `_sprite`
        without checking it first. */
    method AddCriticalProperties()
      requires current != null
      modifies current
      ensures current.Snapshot() == WithCritical(old(current.Snapshot()))
    {
      if current.control.None? {
        current.control := Some(Control([], false));
        current.marks := current.marks.(critical := true);
      }
    }
  }

  /** One iteration of the copy loop of `create`. */
  method AssignProp(s: Sprite, p: Prop)
    modifies s
    ensures s.Snapshot() == ApplyProp(old(s.Snapshot()), p)
  {
    match p
    case NumProp(field, n) => AssignNum(s, field, n);
    case CircularProp(b) => s.circular := b;
    case AnchorProp(a) => s.anchor := a;
    case VelocityProp(v) => s.velocity := v;
    case BaseProp(b) => s.base := b;
    case ControlProp(c) => s.control := c;
    case Other(key, value) => s.extra := s.extra[key := value];
  }

  method AssignNum(s: Sprite, field: NumField, n: Num)
    modifies s
    ensures s.Snapshot() == SetNum(old(s.Snapshot()), field, n)
  {
    match field
    case X => s.geo := s.geo.(x := n);
    case Y => s.geo := s.geo.(y := n);
    case Width => s.geo := s.geo.(width := n);
    case Height => s.geo := s.geo.(height := n);
    case Gx => s.geo := s.geo.(gx := n);
    case Gy => s.geo := s.geo.(gy := n);
    case CenterX => s.bounds := s.bounds.(centerX := n);
    case CenterY => s.bounds := s.bounds.(centerY := n);
    case HalfWidth => s.bounds := s.bounds.(halfWidth := n);
    case HalfHeight => s.bounds := s.bounds.(halfHeight := n);
    case XAnchorOffset => s.bounds := s.bounds.(xAnchorOffset := n);
    case YAnchorOffset => s.bounds := s.bounds.(yAnchorOffset := n);
    case Radius => s.bounds := s.bounds.(radius := n);
    case Diameter => s.bounds := s.bounds.(diameter := n);
  }

  /** The conditional writes of addCollisionProperties (src/sprite.ts:103-135),
      collected on a copy of the bounds and stored at the end; nothing else
      reads the sprite in between. */
  method WriteBounds(s: Sprite)
    modifies s
    ensures s.Snapshot() == old(s.Snapshot()).(
      bounds := FillBounds(old(s.geo), old(s.anchor), old(s.circular), old(s.bounds)))
  {
    var g := s.geo;
    var b := s.bounds;
    b := if Falsy(b.centerX) then b.(centerX := Add(g.x, Half(g.width))) else b;
    b := if Falsy(b.centerY) then b.(centerX := Add(g.y, Half(g.height))) else b;
    b := if Falsy(b.halfWidth) then b.(halfWidth := Half(g.width)) else b;
    b := if Falsy(b.halfHeight) then b.(halfHeight := Half(g.height)) else b;
    b := if Falsy(b.xAnchorOffset) then b.(xAnchorOffset := AnchorOffset(g.width, s.anchor, true)) else b;
    b := if Falsy(b.yAnchorOffset) then b.(yAnchorOffset := AnchorOffset(g.height, s.anchor, false)) else b;
    b := if s.circular && Falsy(b.radius) then b.(radius := Half(g.width)) else b;
    s.bounds := b;
  }

  // ---------------------------------------------------------------------
  // The velocity closures
  // ---------------------------------------------------------------------

  /** `velocity.setVelocity(sprite, value)` (src/sprite.ts:157-160). */
  method SetVelocity(s: Sprite, value: Num)
    requires s.velocity.Some?
    modifies s
    ensures s.Snapshot() == old(s.Snapshot()).(
      velocity := Some(old(s.velocity.value).(vx := value, vy := value)))
  {
    var v := s.velocity.value;
    s.velocity := Some(v.(vx := value));
    s.velocity := Some(s.velocity.value.(vy := value));
  }

  /** The velocity with movement switched. */
  function Toggled(v: Velocity): (w: Velocity)
    ensures w.movement != v.movement && w.vx == v.vx && w.vy == v.vy
  {
    v.(movement := !v.movement)
  }

  /** Switching twice restores the velocity. */
  lemma ToggledTwice(v: Velocity)
    ensures Toggled(Toggled(v)) == v
  {
  }

  /** `velocity.setMovement(sprite)` (src/sprite.ts:161-163). */
  method SetMovement(s: Sprite)
    requires s.velocity.Some?
    modifies s
    ensures s.Snapshot() == old(s.Snapshot()).(velocity := Some(Toggled(old(s.velocity.value))))
  {
    s.velocity := Some(s.velocity.value.(movement := !s.velocity.value.movement));
  }

  // ---------------------------------------------------------------------
  // The d20 closures, with the random draw as a parameter
  // ---------------------------------------------------------------------

  /** The values `Math.floor(Math.random() * faces + 1)` can take. */
  predicate InDie(roll: int, faces: int) {
    if faces >= 1 then 1 <= roll <= faces else faces + 1 <= roll <= 1
  }

  /** A_levelUP (src/sprite.ts:322-332) on the stat block, given the life
      roll: it refuses at the maximum level, and otherwise raises the level
      by one and life and maximum life by the roll. */
  function LevelUp(b: RpgBase, roll: int): (r: Result<RpgBase>)
    ensures r.Err? <==> b.level >= b.levelMax
    ensures r.Err? ==> r.error == LevelOverflow
    ensures r.Ok? ==> r.value.level == b.level + 1 <= b.levelMax
    ensures r.Ok? ==> r.value.life.maxHP - r.value.life.hp == b.life.maxHP - b.life.hp
    ensures r.Ok? ==> r.value.life.hp == b.life.hp + roll
    ensures r.Ok? ==> r.value.life.(hp := b.life.hp, maxHP := b.life.maxHP) == b.life
    ensures r.Ok? ==> r.value.(level := b.level, life := b.life) == b
  {
    if b.level >= b.levelMax then Err(LevelOverflow)
    else Ok(b.(level := b.level + 1,
               life := b.life.(hp := b.life.hp + roll, maxHP := b.life.maxHP + roll)))
  }

  /** Calling A_levelUP once per roll, ignoring the refusals. */
  function LevelUps(b: RpgBase, rolls: seq<int>): RpgBase
    decreases |rolls|
  {
    if rolls == [] then b
    else
      var r := LevelUp(b, rolls[0]);
      LevelUps(if r.Ok? then r.value else b, rolls[1..])
  }

  /** Starting at or below the maximum, any number of level-ups lands the
      level at `min(level + count, levelMax)`, keeps the missing life
      constant, and (for a die with faces) adds at least one life per level
      gained and at most `diceHP`. */
  lemma {:induction false} LevelUpsBounded(b: RpgBase, rolls: seq<int>)
    requires b.level <= b.levelMax
    requires forall i :: 0 <= i < |rolls| ==> InDie(rolls[i], b.life.diceHP)
    ensures var e := LevelUps(b, rolls);
      e.level == (if b.level + |rolls| <= b.levelMax then b.level + |rolls| else b.levelMax) &&
      e.levelMax == b.levelMax && e.life.diceHP == b.life.diceHP &&
      e.life.maxHP - e.life.hp == b.life.maxHP - b.life.hp &&
      (b.life.diceHP >= 1 ==>
        e.level - b.level <= e.life.hp - b.life.hp <= (e.level - b.level) * b.life.diceHP)
    decreases |rolls|
  {
    if rolls != [] {
      var r := LevelUp(b, rolls[0]);
      var next := if r.Ok? then r.value else b;
      assert next.levelMax == b.levelMax && next.life.diceHP == b.life.diceHP;
      assert next.life.maxHP - next.life.hp == b.life.maxHP - b.life.hp;
      assert r.Ok? ==> next.level == b.level + 1 && next.life.hp == b.life.hp + rolls[0];
      assert r.Err? ==> next == b;
      assert forall i :: 0 <= i < |rolls[1..]| ==> InDie(rolls[1..][i], next.life.diceHP) by {
        forall i | 0 <= i < |rolls[1..]| ensures InDie(rolls[1..][i], next.life.diceHP) {
          assert rolls[1..][i] == rolls[i + 1];
        }
      }
      LevelUpsBounded(next, rolls[1..]);
      var e := LevelUps(next, rolls[1..]);
      if b.life.diceHP >= 1 && r.Ok? {
        GainStep(e.level - next.level, e.life.hp - next.life.hp, rolls[0], b.life.diceHP);
      }
    }
  }

  /** One more level gained with a roll of the die keeps the life gained
      between one and `d` per level. */
  lemma GainStep(levels: int, gained: int, roll: int, d: int)
    requires levels <= gained <= levels * d && 1 <= roll <= d
    ensures levels + 1 <= gained + roll <= (levels + 1) * d
  {
    assert (levels + 1) * d == levels * d + d;
  }

  /** A_levelUP on the sprite it is given (src/sprite.ts:322-332). */
  method LevelUpSprite(s: Sprite, roll: int) returns (o: Outcome)
    requires s.base.Some?
    requires InDie(roll, s.base.value.life.diceHP)
    modifies s
    ensures LevelUp(old(s.base.value), roll).Err? ==>
      o == Fail(LevelOverflow) && s.Snapshot() == old(s.Snapshot())
    ensures LevelUp(old(s.base.value), roll).Ok? ==>
      o == Pass &&
      s.Snapshot() == old(s.Snapshot()).(base := Some(LevelUp(old(s.base.value), roll).value))
  {
    var b := s.base.value;
    if b.level >= b.levelMax {
      return Fail(LevelOverflow);
    }
    b := b.(level := b.level + 1);
    var life := roll;
    b := b.(life := b.life.(hp := b.life.hp + life));
    b := b.(life := b.life.(maxHP := b.life.maxHP + life));
    s.base := Some(b);
    o := Pass;
  }

  /** A_rollAttack (src/sprite.ts:333-335), given the draw
      `Math.floor(Math.random() * 20)`. */
  function RollAttack(b: RpgBase, raw: int): (r: int)
    requires 0 <= raw <= 19
    ensures b.damage.rollAttack + 1 <= r <= b.damage.rollAttack + 20
  {
    raw + b.damage.rollAttack + 1
  }

  /** Every value of the attack range is some draw's roll. */
  lemma RollAttackCoversRange(b: RpgBase, v: int)
    requires b.damage.rollAttack + 1 <= v <= b.damage.rollAttack + 20
    ensures exists raw :: 0 <= raw <= 19 && RollAttack(b, raw) == v
  {
    assert RollAttack(b, v - b.damage.rollAttack - 1) == v;
  }

  /** The values `Math.floor(Math.random() * n)` can take. */
  predicate InScaled(raw: int, n: int) {
    if n >= 1 then 0 <= raw < n else n <= raw <= 0
  }

  /** A_rollDamage (src/sprite.ts:336-342), given the draw
      `Math.floor(Math.random() * count * faces)`; the bonus is a whole
      number, so it passes through the floor. */
  function RollDamage(b: RpgBase, raw: int): (r: int)
    requires InScaled(raw, b.damage.rollCount * b.damage.rollFaces)
    ensures b.damage.rollCount * b.damage.rollFaces >= 1 ==>
      b.damage.bonus + 1 <= r <= b.damage.bonus + b.damage.rollCount * b.damage.rollFaces
  {
    raw + b.damage.bonus + 1
  }

  /** A_receiveAttack (src/sprite.ts:343-346), given the draw
      `Math.floor(Math.random() * 20)`: the attack lands when the armour does
      not exceed the d20 roll plus the bonus. */
  predicate ReceiveAttack(b: RpgBase, raw: int, bonus: int)
    requires 0 <= raw <= 19
  {
    b.armor.ca + b.armor.temporaryCA <= (raw + 1) + bonus
  }

  /** Armour no higher than `1 + bonus` is hit by every roll; armour above
      `20 + bonus` by none; and a higher roll hits whenever a lower one does. */
  lemma ReceiveAttackThresholds(b: RpgBase, bonus: int)
    ensures b.armor.ca + b.armor.temporaryCA <= 1 + bonus ==>
      forall raw :: 0 <= raw <= 19 ==> ReceiveAttack(b, raw, bonus)
    ensures b.armor.ca + b.armor.temporaryCA > 20 + bonus ==>
      forall raw :: 0 <= raw <= 19 ==> !ReceiveAttack(b, raw, bonus)
    ensures forall lo, hi :: 0 <= lo <= hi <= 19 && ReceiveAttack(b, lo, bonus) ==>
      ReceiveAttack(b, hi, bonus)
  {
  }

  /** What E_hit returns: nothing for a type it does not know. */
  function Lift(r: Result<bool>): Result<Option<bool>> {
    if r.Err? then Err(r.error) else Ok(Some(r.value))
  }

  /** `base.E_hit(r1, r2, {type})` (src/sprite.ts:347-357): `"rectangle"`
      runs the box test (with its writes), `"circle"` the local circle
      test, any other type gives undefined and touches nothing. */
  method EHit(r1: Sprite, r2: Sprite, kind: string) returns (r: Result<Option<bool>>)
    modifies r1, r2
    ensures kind == "rectangle" ==>
      var a, b := old(r1.Snapshot()), old(r2.Snapshot());
      if !a.marks.bump && !b.marks.bump then
        r == Err(BumpMissing) && r1.Snapshot() == a && r2.Snapshot() == b
      else
        r == Ok(Some(Contain.RectangleHit(a, b))) &&
        r1.Snapshot() == Contain.Boxed(a) && r2.Snapshot() == Contain.Boxed(b)
    ensures kind != "rectangle" ==>
      r1.Snapshot() == old(r1.Snapshot()) && r2.Snapshot() == old(r2.Snapshot())
    ensures kind == "circle" ==>
      r == Lift(Contain.HitTestCircle(old(r1.Snapshot()), old(r2.Snapshot()), false))
    ensures kind != "rectangle" && kind != "circle" ==> r == Ok(None)
  {
    if kind == "rectangle" {
      var h := Contain.HitTestRectangle(r1, r2);
      r := Lift(h);
    } else if kind == "circle" {
      r := Lift(Contain.HitTestCircle(r1.Snapshot(), r2.Snapshot(), false));
    } else {
      r := Ok(None);
    }
  }
}
