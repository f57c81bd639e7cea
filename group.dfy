/** SimpleGroup: a collection of sprites addressed either by string tags
    (keyed mode) or by array position (indexed mode), bound to a rendering
    container, with an area and a collision sweep. */
module Groups {
  import opened Js
  import opened Entities
  import Contain
  import Sprites

  // ---------------------------------------------------------------------
  // Arrays, containers, options
  // ---------------------------------------------------------------------

  /** A JavaScript array of sprites. It is an object, so two holders of the
      same array see each other's `push` and `splice`. */
  class SpriteArray {
    var items: seq<Sprite>

    constructor(items: seq<Sprite>)
      ensures this.items == items
    {
      this.items := items;
    }
  }

  /** A call the group makes on its rendering container. */
  datatype ContainerCall =
    | Added(child: Sprite) | Removed(child: Sprite) | Positioned(px: Num, py: Num)
    | Mounted(group: Container)   // addChild of a group's own container

  /** The rendering container: its size and the calls it received. */
  class Container {
    var width: Num
    var height: Num
    var calls: seq<ContainerCall>

    constructor(width: Num, height: Num)
      ensures this.width == width && this.height == height && calls == []
    {
      this.width, this.height, calls := width, height, [];
    }
  }

  datatype Size = Size(width: Num, height: Num)

  /** Where the group's area effects apply: a minimum and a maximum size. */
  datatype Area = Area(min: Size, max: Size)

  const ZeroArea := Area(Size(Fin(0.0), Fin(0.0)), Size(Fin(0.0), Fin(0.0)))

  /** The area a group gets without an `area` option: the container's size
      as minimum and twice it as maximum. */
  function DefaultArea(width: Num, height: Num): Area {
    Area(Size(width, height), Size(Mul(width, Fin(2.0)), Mul(height, Fin(2.0))))
  }

  /** For a container of numeric size the maximum is exactly double the
      minimum, and the minimum is the container's size. */
  lemma DefaultAreaDoubles(width: real, height: real)
    ensures var a := DefaultArea(Fin(width), Fin(height));
      a.min == Size(Fin(width), Fin(height)) &&
      a.max.width.v == 2.0 * a.min.width.v && a.max.height.v == 2.0 * a.min.height.v
  {
  }

  /** The options of a group. `position` is the array given, if any. */
  datatype GroupOptions = GroupOptions(
    container: Container, key: bool, cleanControl: bool,
    size: Option<Size>, position: Option<seq<Num>>, area: Option<Area>)

  /** A position option is accepted when absent or of length two. */
  predicate PositionOk(o: GroupOptions) {
    o.position.None? || |o.position.value| == 2
  }

  /** The first argument of the group: `[key, sprite]` pairs or an array. */
  datatype GroupInput = KeyedList(pairs: seq<(string, Sprite)>) | SpriteList(members: SpriteArray)

  function PairSprites(pairs: seq<(string, Sprite)>): (r: seq<Sprite>)
    ensures |r| == |pairs| && forall i :: 0 <= i < |pairs| ==> r[i] == pairs[i].1
  {
    if pairs == [] then [] else PairSprites(pairs[..|pairs| - 1]) + [pairs[|pairs| - 1].1]
  }

  /** The sprites the input hands to the group. */
  function InputSprites(input: GroupInput): seq<Sprite>
    reads if input.SpriteList? then {input.members} else {}
  {
    if input.KeyedList? then PairSprites(input.pairs) else input.members.items
  }

  /** A lookup key: a string tag or an array position. */
  datatype Key = Name(name: string) | Index(index: int)

  /** What `add` is given: a `[key, sprite]` pair or a sprite. */
  datatype Entry = Tagged(key: string, sprite: Sprite) | Plain(sprite: Sprite)

  /** An entry of the callback array: a function (by its identity) or a
      falsy value, which the sweep skips. */
  datatype Callback = Fn(id: nat) | Absent

  /** One callback invocation: the callback's position in the array and the
      position of the member it was given. */
  datatype Call = Call(callback: nat, member: nat)

  // ---------------------------------------------------------------------
  // Effects on members, as functions of their fields
  // ---------------------------------------------------------------------

  /** `_simpleGroupAdded` set, when `mark` holds. */
  function Marked(f: Fields, mark: bool): Fields {
    if mark then f.(marks := f.marks.(simpleGroup := true)) else f
  }

  /** The tag of the last of the first `n` pairs that names sprite `s`,
      if any. */
  function LastKeyOf(pairs: seq<(string, Sprite)>, n: nat, s: Sprite): Option<string>
    requires n <= |pairs|
  {
    if n == 0 then None
    else if pairs[n - 1].1 == s then Some(pairs[n - 1].0)
    else LastKeyOf(pairs, n - 1, s)
  }

  /** `__GROUP_KEY` written, when there is a tag to write. */
  function WithTag(f: Fields, tag: Option<string>): Fields {
    if tag.Some? then f.(groupKey := tag) else f
  }

  /** When no sprite is paired twice, every member ends up tagged with its
      own key; a repeated key is accepted and simply tags two members. */
  lemma {:induction false} DistinctSpritesGetTheirKeys(pairs: seq<(string, Sprite)>, n: nat, j: nat)
    requires j < n <= |pairs|
    requires forall a, b :: 0 <= a < b < |pairs| ==> pairs[a].1 != pairs[b].1
    ensures LastKeyOf(pairs, n, pairs[j].1) == Some(pairs[j].0)
    decreases n
  {
    if j < n - 1 {
      assert pairs[n - 1].1 != pairs[j].1;
      DistinctSpritesGetTheirKeys(pairs, n - 1, j);
    }
  }

  /** A repeated sprite keeps the key of its last pair. */
  lemma {:induction false} LaterPairWins(pairs: seq<(string, Sprite)>, n: nat, a: nat, b: nat)
    requires a < b < n <= |pairs| && pairs[a].1 == pairs[b].1
    requires forall c :: b < c < n ==> pairs[c].1 != pairs[b].1
    ensures LastKeyOf(pairs, n, pairs[a].1) == Some(pairs[b].0)
    decreases n
  {
    if b < n - 1 {
      LaterPairWins(pairs, n - 1, a, b);
    }
  }

  /** The addChild calls for each sprite in order. */
  function AddedAll(items: seq<Sprite>): (r: seq<ContainerCall>)
    ensures |r| == |items| && forall i :: 0 <= i < |items| ==> r[i] == Added(items[i])
  {
    if items == [] then [] else AddedAll(items[..|items| - 1]) + [Added(items[|items| - 1])]
  }

  /** The calls setGroup makes on the container: the position, when given
      correctly, then one addChild per member unless it threw first. */
  function SetGroupCalls(o: GroupOptions, items: seq<Sprite>): seq<ContainerCall> {
    if !PositionOk(o) then []
    else (if o.position.Some? then [Positioned(o.position.value[0], o.position.value[1])] else [])
         + AddedAll(items)
  }

  /** The fields of every sprite of a sequence. */
  function Snapshots(items: seq<Sprite>): (r: seq<Fields>)
    reads items
    ensures |r| == |items| && forall i :: 0 <= i < |items| ==> r[i] == items[i].Snapshot()
  {
    if items == [] then [] else Snapshots(items[..|items| - 1]) + [items[|items| - 1].Snapshot()]
  }

  // ---------------------------------------------------------------------
  // Lookup by tag
  // ---------------------------------------------------------------------

  /** `list.filter(s => s.__GROUP_KEY === name)` */
  function WithKey(items: seq<Sprite>, name: string): (r: seq<Sprite>)
    reads items
    decreases |items|
  {
    if items == [] then []
    else
      var last := items[|items| - 1];
      WithKey(items[..|items| - 1], name) + (if last.groupKey == Some(name) then [last] else [])
  }

  /** `list.filter(s => s.__GROUP_KEY !== name)` */
  function WithoutKey(items: seq<Sprite>, name: string): (r: seq<Sprite>)
    reads items
    decreases |items|
  {
    if items == [] then []
    else
      var last := items[|items| - 1];
      WithoutKey(items[..|items| - 1], name) + (if last.groupKey != Some(name) then [last] else [])
  }

  /** The filter keeps only sprites of the list that carry the tag. */
  lemma {:induction false} WithKeySound(items: seq<Sprite>, name: string)
    ensures forall s :: s in WithKey(items, name) ==> s in items && s.groupKey == Some(name)
    decreases |items|
  {
    if items != [] {
      WithKeySound(items[..|items| - 1], name);
    }
  }

  /** The complementary filter keeps only sprites of the list without it. */
  lemma {:induction false} WithoutKeySound(items: seq<Sprite>, name: string)
    ensures forall s :: s in WithoutKey(items, name) ==> s in items && s.groupKey != Some(name)
    decreases |items|
  {
    if items != [] {
      WithoutKeySound(items[..|items| - 1], name);
    }
  }

  /** Exactly one position of the list carries tag `name`, and it is `i`. */
  predicate OnlyAt(items: seq<Sprite>, name: string, i: int)
    reads items
  {
    0 <= i < |items| && items[i].groupKey == Some(name) &&
    forall j :: 0 <= j < |items| && j != i ==> items[j].groupKey != Some(name)
  }

  /** No position of the list carries tag `name`. */
  predicate NoneCarries(items: seq<Sprite>, name: string)
    reads items
  {
    forall j :: 0 <= j < |items| ==> items[j].groupKey != Some(name)
  }

  lemma {:induction false} WithKeyEmpty(items: seq<Sprite>, name: string)
    ensures WithKey(items, name) == [] <==> NoneCarries(items, name)
    decreases |items|
  {
    if items != [] {
      var init := items[..|items| - 1];
      WithKeyEmpty(init, name);
      assert forall j :: 0 <= j < |init| ==> init[j] == items[j];
    }
  }

  /** The filter has exactly one element exactly when exactly one position
      carries the tag, and that element is the sprite at that position. */
  lemma WithKeySingle(items: seq<Sprite>, name: string)
    ensures |WithKey(items, name)| == 1 <==> exists i :: OnlyAt(items, name, i)
    ensures forall i :: OnlyAt(items, name, i) ==> WithKey(items, name) == [items[i]]
  {
    forall i | OnlyAt(items, name, i) ensures WithKey(items, name) == [items[i]] {
      WithKeyAt(items, name, i);
    }
    if |WithKey(items, name)| == 1 {
      var i := WithKeyOne(items, name);
    }
  }

  /** When only position `i` carries the tag, the filter is that sprite. */
  lemma {:induction false} WithKeyAt(items: seq<Sprite>, name: string, i: int)
    requires OnlyAt(items, name, i)
    ensures WithKey(items, name) == [items[i]]
    decreases |items|
  {
    var n := |items| - 1;
    var init := items[..n];
    if i == n {
      assert NoneCarries(init, name) by {
        forall j | 0 <= j < |init| ensures init[j].groupKey != Some(name) {
          assert init[j] == items[j];
        }
      }
      WithKeyEmpty(init, name);
    } else {
      assert OnlyAt(init, name, i) by {
        forall j | 0 <= j < |init| && j != i ensures init[j].groupKey != Some(name) {
          assert init[j] == items[j];
        }
      }
      WithKeyAt(init, name, i);
    }
  }

  /** A filter of one element comes from the one position carrying the tag. */
  lemma {:induction false} WithKeyOne(items: seq<Sprite>, name: string) returns (i: int)
    requires |WithKey(items, name)| == 1
    ensures OnlyAt(items, name, i)
    decreases |items|
  {
    var n := |items| - 1;
    var init := items[..n];
    if items[n].groupKey == Some(name) {
      WithKeyEmpty(init, name);
      i := n;
      forall j | 0 <= j < n ensures items[j].groupKey != Some(name) {
        assert init[j] == items[j];
      }
    } else {
      i := WithKeyOne(init, name);
      forall j | 0 <= j < n ensures init[j] == items[j] {
      }
    }
  }

  /** Dropping the one sprite tagged `name` is removing its position. */
  lemma {:induction false} WithoutKeyDropsOne(items: seq<Sprite>, name: string, i: int)
    requires OnlyAt(items, name, i)
    ensures WithoutKey(items, name) == items[..i] + items[i + 1..]
    decreases |items|
  {
    var n := |items| - 1;
    var init, last := items[..n], items[n];
    assert WithoutKey(items, name) ==
      WithoutKey(init, name) + (if last.groupKey != Some(name) then [last] else []);
    if i == n {
      assert NoneCarries(init, name) by {
        forall j | 0 <= j < |init| ensures init[j].groupKey != Some(name) {
          assert init[j] == items[j];
        }
      }
      WithoutKeyKeepsAll(init, name);
      assert items[..i] + items[i + 1..] == init;
    } else {
      assert OnlyAt(init, name, i) by {
        forall j | 0 <= j < |init| && j != i ensures init[j].groupKey != Some(name) {
          assert init[j] == items[j];
        }
      }
      WithoutKeyDropsOne(init, name, i);
      assert items[..i] == init[..i];
      assert items[i + 1..] == init[i + 1..] + [last];
    }
  }

  lemma {:induction false} WithoutKeyKeepsAll(items: seq<Sprite>, name: string)
    requires NoneCarries(items, name)
    ensures WithoutKey(items, name) == items
    decreases |items|
  {
    if items != [] {
      var init := items[..|items| - 1];
      assert NoneCarries(init, name) by {
        forall j | 0 <= j < |init| ensures init[j].groupKey != Some(name) {
          assert init[j] == items[j];
        }
      }
      WithoutKeyKeepsAll(init, name);
      assert init + [items[|items| - 1]] == items;
    }
  }

  // ---------------------------------------------------------------------
  // The collision sweep, as a function of the members' fields
  // ---------------------------------------------------------------------

  /** A member may take part in the sweep only with both flags. */
  predicate Flagged(m: Fields) {
    m.marks.bump && m.marks.d20
  }

  /** The sweep skips a member whose tag of an active mode equals the
      target's; two absent tags are equal. */
  predicate Skipped(m: Fields, t: Fields, groupKeyMode: bool, numberKeyMode: bool) {
    (m.groupKey == t.groupKey && groupKeyMode) || (m.numberKey == t.numberKey && numberKeyMode)
  }

  /** The invocations for one hit on the member at position `i`: every
      callback that is a function, in array order. */
  function CallsFor(cbs: seq<Callback>, i: nat): (r: seq<Call>)
    ensures forall c :: c in r ==> c.member == i && c.callback < |cbs| && cbs[c.callback].Fn?
    ensures forall k :: 0 <= k < |cbs| && cbs[k].Fn? ==> Call(k, i) in r
    ensures forall a, b :: 0 <= a < b < |r| ==> r[a].callback < r[b].callback
    decreases |cbs|
  {
    if cbs == [] then []
    else
      var n := |cbs| - 1;
      var prev := CallsFor(cbs[..n], i);
      assert forall k :: 0 <= k < n ==> cbs[..n][k] == cbs[k];
      prev + (if cbs[n].Fn? then [Call(n, i)] else [])
  }

  /** What the sweep has done: whether it threw, the invocations so far,
      and the positions whose member it tested against the target. */
  datatype SweepState = SweepState(failed: bool, calls: seq<Call>, tested: set<nat>)

  /** E_hitEffect over the members' fields at its start (src/group.ts:286-304).
      The box test only rewrites fields it derives again from unchanged ones,
      so testing against the start state is testing against the current one. */
  function Sweep(ms: seq<Fields>, t: Fields, groupKeyMode: bool, numberKeyMode: bool,
                 cbs: seq<Callback>): (r: SweepState)
    ensures forall j :: j in r.tested ==> j < |ms|
    ensures forall c :: c in r.calls ==> c.member < |ms|
    decreases |ms|
  {
    if ms == [] then SweepState(false, [], {})
    else
      var i := |ms| - 1;
      Step(Sweep(ms[..i], t, groupKeyMode, numberKeyMode, cbs), ms[i], i, t, groupKeyMode, numberKeyMode, cbs)
  }

  /** The sweep's visit of member `m` at position `i`. */
  function Step(prev: SweepState, m: Fields, i: nat, t: Fields, groupKeyMode: bool, numberKeyMode: bool,
                cbs: seq<Callback>): SweepState
  {
    if prev.failed then prev
    else if !Flagged(m) then prev.(failed := true)
    else if Skipped(m, t, groupKeyMode, numberKeyMode) then prev
    else if Contain.RectangleHit(m, t) then
      prev.(calls := prev.calls + CallsFor(cbs, i), tested := prev.tested + {i})
    else prev.(tested := prev.tested + {i})
  }

  /** The sweep up to position `i` inclusive is one more step. */
  lemma SweepUnfold(ms: seq<Fields>, i: nat, t: Fields, gk: bool, nk: bool, cbs: seq<Callback>)
    requires i < |ms|
    ensures Sweep(ms[..i + 1], t, gk, nk, cbs) == Step(Sweep(ms[..i], t, gk, nk, cbs), ms[i], i, t, gk, nk, cbs)
  {
    assert ms[..i + 1][..i] == ms[..i];
  }

  /** A step that throws ends the sweep. */
  lemma SweepFailsAt(ms: seq<Fields>, i: nat, st: SweepState, t: Fields, gk: bool, nk: bool, cbs: seq<Callback>)
    requires i < |ms| && st.failed
    requires st == Step(Sweep(ms[..i], t, gk, nk, cbs), ms[i], i, t, gk, nk, cbs)
    ensures Sweep(ms, t, gk, nk, cbs) == st
  {
    SweepUnfold(ms, i, t, gk, nk, cbs);
    SweepStopsAtFailure(ms, i + 1, t, gk, nk, cbs);
  }

  /** The sweep throws exactly when some member lacks a flag. */
  lemma {:induction false} SweepFailsOnUnflagged(ms: seq<Fields>, t: Fields, gk: bool, nk: bool,
                                                 cbs: seq<Callback>)
    ensures Sweep(ms, t, gk, nk, cbs).failed <==> exists j :: 0 <= j < |ms| && !Flagged(ms[j])
    decreases |ms|
  {
    if ms != [] {
      var init := ms[..|ms| - 1];
      SweepFailsOnUnflagged(init, t, gk, nk, cbs);
      assert forall j :: 0 <= j < |init| ==> init[j] == ms[j];
    }
  }

  /** Invocation `c` is of a function in the callback array, given a
      flagged member that hits the target and was not skipped, and every
      member before that one is flagged. */
  predicate Justified(c: Call, ms: seq<Fields>, t: Fields, gk: bool, nk: bool, cbs: seq<Callback>) {
    c.member < |ms| && c.callback < |cbs| && cbs[c.callback].Fn? &&
    Flagged(ms[c.member]) && !Skipped(ms[c.member], t, gk, nk) &&
    Contain.RectangleHit(ms[c.member], t) &&
    forall j :: 0 <= j < c.member ==> Flagged(ms[j])
  }

  /** Every invocation the sweep makes is justified. */
  lemma {:induction false} SweepCallsAreHits(ms: seq<Fields>, t: Fields, gk: bool, nk: bool,
                                             cbs: seq<Callback>)
    ensures forall c :: c in Sweep(ms, t, gk, nk, cbs).calls ==> Justified(c, ms, t, gk, nk, cbs)
    decreases |ms|
  {
    if ms != [] {
      var n := |ms| - 1;
      var init := ms[..n];
      var prev := Sweep(init, t, gk, nk, cbs);
      SweepCallsAreHits(init, t, gk, nk, cbs);
      if !prev.failed {
        SweepFailsOnUnflagged(init, t, gk, nk, cbs);
      }
      forall c | c in Sweep(ms, t, gk, nk, cbs).calls ensures Justified(c, ms, t, gk, nk, cbs) {
        assert forall j :: 0 <= j < n ==> init[j] == ms[j];
        if c in prev.calls {
          assert Justified(c, init, t, gk, nk, cbs);
        } else {
          assert c in CallsFor(cbs, n);
        }
      }
    }
  }

  /** Every member that hits the target and is not skipped, with every
      member up to it flagged, has every function in the callback array
      invoked on it, even when a later member makes the sweep throw. */
  lemma SweepCallsEveryHit(ms: seq<Fields>, t: Fields, gk: bool, nk: bool, cbs: seq<Callback>)
    ensures var s := Sweep(ms, t, gk, nk, cbs);
      forall j, k ::
        (0 <= j < |ms| && 0 <= k < |cbs| && cbs[k].Fn? &&
         (forall i :: 0 <= i <= j ==> Flagged(ms[i])) &&
         !Skipped(ms[j], t, gk, nk) && Contain.RectangleHit(ms[j], t)) ==>
        Call(k, j) in s.calls
  {
    forall j, k | 0 <= j < |ms| && 0 <= k < |cbs| && cbs[k].Fn? &&
                  (forall i :: 0 <= i <= j ==> Flagged(ms[i])) &&
                  !Skipped(ms[j], t, gk, nk) && Contain.RectangleHit(ms[j], t)
      ensures Call(k, j) in Sweep(ms, t, gk, nk, cbs).calls
    {
      SweepCallsHit(ms, t, gk, nk, cbs, j, k);
    }
  }

  /** One hit of SweepCallsEveryHit, by induction on the members after it. */
  lemma {:induction false} SweepCallsHit(ms: seq<Fields>, t: Fields, gk: bool, nk: bool,
                                         cbs: seq<Callback>, j: nat, k: nat)
    requires j < |ms| && k < |cbs| && cbs[k].Fn?
    requires forall i :: 0 <= i <= j ==> Flagged(ms[i])
    requires !Skipped(ms[j], t, gk, nk) && Contain.RectangleHit(ms[j], t)
    ensures Call(k, j) in Sweep(ms, t, gk, nk, cbs).calls
    decreases |ms|
  {
    var n := |ms| - 1;
    var init := ms[..n];
    var prev := Sweep(init, t, gk, nk, cbs);
    assert Sweep(ms, t, gk, nk, cbs) == Step(prev, ms[n], n, t, gk, nk, cbs);
    if j < n {
      assert forall i :: 0 <= i <= j ==> init[i] == ms[i];
      SweepCallsHit(init, t, gk, nk, cbs, j, k);
    } else {
      SweepFailsOnUnflagged(init, t, gk, nk, cbs);
      assert forall i :: 0 <= i < n ==> init[i] == ms[i];
      assert Call(k, n) in CallsFor(cbs, n);
    }
  }

  /** `a` comes before `b`: an earlier member, or the same member and an
      earlier callback. */
  predicate Before(a: Call, b: Call) {
    a.member < b.member || (a.member == b.member && a.callback < b.callback)
  }

  /** Invocations run member by member in list order, and for one member
      in callback order. */
  predicate InOrder(calls: seq<Call>) {
    forall a, b :: 0 <= a < b < |calls| ==> Before(calls[a], calls[b])
  }

  lemma ConcatInOrder(xs: seq<Call>, ys: seq<Call>, n: nat)
    requires InOrder(xs) && forall c :: c in xs ==> c.member < n
    requires forall c :: c in ys ==> c.member == n
    requires forall a, b :: 0 <= a < b < |ys| ==> ys[a].callback < ys[b].callback
    ensures InOrder(xs + ys)
  {
    var zs := xs + ys;
    forall a, b | 0 <= a < b < |zs| ensures Before(zs[a], zs[b]) {
      if b >= |xs| {
        assert zs[b] == ys[b - |xs|] && zs[b] in ys;
        if a < |xs| {
          assert zs[a] == xs[a] && zs[a] in xs;
        } else {
          assert zs[a] == ys[a - |xs|] && zs[a] in ys;
        }
      } else {
        assert zs[a] == xs[a] && zs[b] == xs[b];
      }
    }
  }

  lemma {:induction false} SweepCallsInOrder(ms: seq<Fields>, t: Fields, gk: bool, nk: bool,
                                             cbs: seq<Callback>)
    ensures InOrder(Sweep(ms, t, gk, nk, cbs).calls)
    decreases |ms|
  {
    if ms != [] {
      var n := |ms| - 1;
      var init := ms[..n];
      SweepCallsInOrder(init, t, gk, nk, cbs);
      var p := Sweep(init, t, gk, nk, cbs);
      if !p.failed && Flagged(ms[n]) && !Skipped(ms[n], t, gk, nk) && Contain.RectangleHit(ms[n], t) {
        ConcatInOrder(p.calls, CallsFor(cbs, n), n);
      }
    }
  }

  /** With no member hitting the target, no callback runs. */
  lemma NoHitNoCalls(ms: seq<Fields>, t: Fields, gk: bool, nk: bool, cbs: seq<Callback>)
    requires forall j :: 0 <= j < |ms| ==> !Contain.RectangleHit(ms[j], t)
    ensures Sweep(ms, t, gk, nk, cbs).calls == []
  {
    SweepCallsAreHits(ms, t, gk, nk, cbs);
  }

  /** Once the sweep has thrown, the later members change nothing. */
  lemma {:induction false} SweepStopsAtFailure(ms: seq<Fields>, n: nat, t: Fields, gk: bool, nk: bool,
                                               cbs: seq<Callback>)
    requires n <= |ms| && Sweep(ms[..n], t, gk, nk, cbs).failed
    ensures Sweep(ms, t, gk, nk, cbs) == Sweep(ms[..n], t, gk, nk, cbs)
    decreases |ms|
  {
    if n < |ms| {
      var init := ms[..|ms| - 1];
      assert init[..n] == ms[..n];
      SweepStopsAtFailure(init, n, t, gk, nk, cbs);
    } else {
      assert ms[..n] == ms;
    }
  }

  /** The box test's writes on a sprite that was tested. */
  function Touch(f: Fields, tested: bool): (r: Fields)
    ensures r.geo == f.geo && r.marks == f.marks
    ensures r.groupKey == f.groupKey && r.numberKey == f.numberKey
  {
    if tested then Contain.Boxed(f) else f
  }

  /** Some tested position below `n` holds sprite `s`. */
  predicate HeldAt(items: seq<Sprite>, tested: set<nat>, s: Sprite, n: nat)
    requires n <= |items|
    decreases n
  {
    n > 0 && ((n - 1 in tested && items[n - 1] == s) || HeldAt(items, tested, s, n - 1))
  }

  /** The sweep has written to sprite `s`: it is a tested member, or it is
      the target and some member was tested. */
  predicate Written(items: seq<Sprite>, target: Sprite, tested: set<nat>, s: Sprite) {
    HeldAt(items, tested, s, |items|) || (s == target && tested != {})
  }

  /** Before any test nothing has been written to. */
  lemma {:induction false} HeldAtNone(items: seq<Sprite>, s: Sprite, n: nat)
    requires n <= |items|
    ensures !HeldAt(items, {}, s, n)
    decreases n
  {
    if n > 0 {
      HeldAtNone(items, s, n - 1);
    }
  }

  /** Testing one more position writes to exactly one more sprite. */
  lemma {:induction false} HeldAtAdd(items: seq<Sprite>, tested: set<nat>, i: nat, s: Sprite, n: nat)
    requires i < |items| && n <= |items|
    ensures HeldAt(items, tested + {i}, s, n) == (HeldAt(items, tested, s, n) || (i < n && items[i] == s))
    decreases n
  {
    if n > 0 {
      HeldAtAdd(items, tested, i, s, n - 1);
    }
  }

  /** Testing against written-to sprites is testing against the originals. */
  lemma RectangleHitTouched(a: Fields, b: Fields, ta: bool, tb: bool)
    ensures Contain.RectangleHit(Touch(a, ta), Touch(b, tb)) == Contain.RectangleHit(a, b)
  {
    Contain.BoxedIdempotent(a);
    Contain.BoxedIdempotent(b);
  }

  /** Every sprite the sweep has written to carries the box fields derived
      from its fields at the start, and every other one its start fields. */
  ghost predicate Swept(items: seq<Sprite>, target: Sprite,
                        ms: seq<Fields>, t0: Fields, tested: set<nat>)
    reads items, target
  {
    |ms| == |items| &&
    (forall j :: 0 <= j < |items| ==>
      items[j].Snapshot() == Touch(ms[j], Written(items, target, tested, items[j]))) &&
    target.Snapshot() == Touch(t0, Written(items, target, tested, target))
  }

  /** Before the sweep every sprite has its start fields. */
  lemma SweptAtStart(items: seq<Sprite>, target: Sprite)
    ensures Swept(items, target, Snapshots(items), target.Snapshot(), {})
  {
    forall j | 0 <= j < |items| ensures !Written(items, target, {}, items[j]) {
      HeldAtNone(items, items[j], |items|);
    }
    HeldAtNone(items, target, |items|);
  }

  /** The box writes leave the flags and tags the sweep reads as they were. */
  lemma SweptFieldsKept(items: seq<Sprite>, target: Sprite, ms: seq<Fields>, t0: Fields,
                        tested: set<nat>, i: nat)
    requires i < |items| && Swept(items, target, ms, t0, tested)
    ensures items[i].marks == ms[i].marks
    ensures items[i].groupKey == ms[i].groupKey && items[i].numberKey == ms[i].numberKey
    ensures target.groupKey == t0.groupKey && target.numberKey == t0.numberKey
  {
  }

  /** One member's box test against the target, as E_hit of type
      'rectangle' runs it: the answer is the test on the start fields, and
      the member and the target join the written-to sprites. */
  method Probe(items: seq<Sprite>, i: nat, target: Sprite, ghost ms: seq<Fields>, ghost t0: Fields,
               ghost tested: set<nat>) returns (hit: bool)
    requires i < |items| && Swept(items, target, ms, t0, tested)
    requires items[i].marks.bump
    modifies items[i], target
    ensures hit == Contain.RectangleHit(ms[i], t0)
    ensures Swept(items, target, ms, t0, tested + {i})
  {
    RectangleHitTouched(ms[i], t0, Written(items, target, tested, items[i]), Written(items, target, tested, target));
    var r := Sprites.EHit(items[i], target, "rectangle");
    hit := r.Ok? && r.value.Some? && r.value.value;
    forall j | 0 <= j < |items|
      ensures items[j].Snapshot() == Touch(ms[j], Written(items, target, tested + {i}, items[j]))
    {
      HeldAtAdd(items, tested, i, items[j], |items|);
      Contain.BoxedIdempotent(ms[j]);
    }
    HeldAtAdd(items, tested, i, target, |items|);
    Contain.BoxedIdempotent(t0);
  }

  /** E_hitEffect's loop over the members. */
  method SweepMembers(items: seq<Sprite>, target: Sprite, gk: bool, nk: bool, execute: seq<Callback>,
                      ghost ms: seq<Fields>, ghost t0: Fields)
    returns (o: Outcome, trace: seq<Call>, ghost st: SweepState)
    requires Swept(items, target, ms, t0, {})
    modifies items, target
    ensures st == Sweep(ms, t0, gk, nk, execute)
    ensures o == (if st.failed then Fail(BumpOrD20Missing) else Pass)
    ensures trace == st.calls
    ensures Swept(items, target, ms, t0, st.tested)
  {
    st := Sweep([], t0, gk, nk, execute);
    o, trace := Pass, [];
    var i := 0;
    while i < |items|
      invariant 0 <= i <= |items|
      invariant st == Sweep(ms[..i], t0, gk, nk, execute)
      invariant !st.failed && trace == st.calls
      invariant Swept(items, target, ms, t0, st.tested)
    {
      var failed, calls := Visit(items, i, target, gk, nk, execute, ms, t0, st);
      SweepUnfold(ms, i, t0, gk, nk, execute);
      st := Step(st, ms[i], i, t0, gk, nk, execute);
      if failed {
        SweepFailsAt(ms, i, st, t0, gk, nk, execute);
        o := Fail(BumpOrD20Missing);
        return;
      }
      trace := trace + calls;
      i := i + 1;
    }
    assert ms[..|items|] == ms;
  }

  /** The visit of one member: the flag check, the skip, the box test and
      the callbacks of a hit. */
  method Visit(items: seq<Sprite>, i: nat, target: Sprite, gk: bool, nk: bool, execute: seq<Callback>,
               ghost ms: seq<Fields>, ghost t0: Fields, ghost prev: SweepState)
    returns (failed: bool, calls: seq<Call>)
    requires i < |items| && !prev.failed && Swept(items, target, ms, t0, prev.tested)
    modifies items[i], target
    ensures var next := Step(prev, ms[i], i, t0, gk, nk, execute);
      failed == next.failed &&
      (failed ==> next.calls == prev.calls) && (!failed ==> next.calls == prev.calls + calls) &&
      Swept(items, target, ms, t0, next.tested)
  {
    var sprite := items[i];
    SweptFieldsKept(items, target, ms, t0, prev.tested, i);
    ghost var next := Step(prev, ms[i], i, t0, gk, nk, execute);
    if !sprite.marks.bump || !sprite.marks.d20 {
      assert next == prev.(failed := true);
      return true, [];
    }
    calls := [];
    failed := false;
    if !((sprite.groupKey == target.groupKey && gk) || (sprite.numberKey == target.numberKey && nk)) {
      var hit := Probe(items, i, target, ms, t0, prev.tested);
      if hit {
        calls := RunCallbacks(execute, i);
        assert next == prev.(calls := prev.calls + calls, tested := prev.tested + {i});
      } else {
        assert next == prev.(tested := prev.tested + {i});
      }
    } else {
      assert next == prev;
    }
  }

  /** The callbacks of one hit, run in array order, falsy entries skipped. */
  method RunCallbacks(execute: seq<Callback>, i: nat) returns (calls: seq<Call>)
    ensures calls == CallsFor(execute, i)
  {
    calls := [];
    for k := 0 to |execute|
      invariant calls == CallsFor(execute[..k], i)
    {
      assert execute[..k + 1][..k] == execute[..k];
      if execute[k].Fn? {
        calls := calls + [Call(k, i)];
      }
    }
    assert execute[..|execute|] == execute;
  }

  /** keySetter's loop: each paired sprite tagged with its key, in order,
      and collected into a new array. */
  method TagPairs(pairs: seq<(string, Sprite)>) returns (members: SpriteArray)
    modifies PairSprites(pairs)
    ensures fresh(members) && members.items == PairSprites(pairs)
    ensures forall s :: s in members.items ==>
      s.Snapshot() == WithTag(old(s.Snapshot()), LastKeyOf(pairs, |pairs|, s))
  {
    members := new SpriteArray([]);
    ghost var sprites := PairSprites(pairs);
    for i := 0 to |pairs|
      invariant fresh(members) && members.items == PairSprites(pairs[..i])
      invariant forall s :: s in sprites ==> s.Snapshot() == WithTag(old(s.Snapshot()), LastKeyOf(pairs, i, s))
    {
      var item := pairs[i];
      assert pairs[..i + 1][..i] == pairs[..i];
      assert item.1 == sprites[i];
      label before:
      item.1.groupKey := Some(item.0);
      members.items := members.items + [item.1];
      forall s | s in sprites
        ensures s.Snapshot() == WithTag(old(s.Snapshot()), LastKeyOf(pairs, i + 1, s))
      {
        if s != item.1 {
          assert s.Snapshot() == old@before(s.Snapshot());
        }
      }
    }
    assert pairs[..|pairs|] == pairs;
  }

  /** setGroup's work on the container: the size, then the position
      (throwing on an array whose length is not two), then one addChild per
      member. */
  method Arrange(stage: Container, options: GroupOptions, items: seq<Sprite>) returns (o: Outcome)
    modifies stage
    ensures o == (if PositionOk(options) then Pass else Fail(WrongPosition))
    ensures options.size.Some? ==>
      stage.width == options.size.value.width && stage.height == options.size.value.height
    ensures options.size.None? ==>
      stage.width == old(stage.width) && stage.height == old(stage.height)
    ensures stage.calls == old(stage.calls) + SetGroupCalls(options, items)
  {
    if options.size.Some? {
      stage.width := options.size.value.width;
      stage.height := options.size.value.height;
    }
    if options.position.Some? {
      var position := options.position.value;
      if |position| == 2 {
        stage.calls := stage.calls + [Positioned(position[0], position[1])];
      } else {
        return Fail(WrongPosition);
      }
    }
    AddChildren(stage, items);
    o := Pass;
  }

  /** `addChild` for every member, in order. */
  method AddChildren(stage: Container, items: seq<Sprite>)
    modifies stage
    ensures stage.calls == old(stage.calls) + AddedAll(items)
    ensures stage.width == old(stage.width) && stage.height == old(stage.height)
  {
    for i := 0 to |items|
      invariant stage.calls == old(stage.calls) + AddedAll(items[..i])
      invariant stage.width == old(stage.width) && stage.height == old(stage.height)
    {
      assert items[..i + 1][..i] == items[..i];
      stage.calls := stage.calls + [Added(items[i])];
    }
    assert items[..|items|] == items;
  }

  // ---------------------------------------------------------------------
  // SimpleGroup
  // ---------------------------------------------------------------------

  class SimpleGroup {
    /** The member array (`list`). */
    var list: SpriteArray?
    /** The rendering container. */
    var container: Container?
    /** `__GROUP_KEY`: lookup by string tag. */
    var groupKeyMode: bool
    /** `__NUMBER_KEY`: lookup by position. */
    var numberKeyMode: bool
    var area: Area

    /** A group that has been set up: it has its array and its container. */
    predicate Valid()
      reads this
    {
      list != null && container != null
    }

    /** What setGroup leaves behind, given the container's size (`w`, `h`)
        and calls and the group's area (`a`) before it ran: the container
        has the given size, or keeps its own; its calls gain the position
        and one addChild per member of `items`; the outcome throws exactly
        on a malformed position; a success sets the given area or one
        derived from the container, a throw keeps the old one. */
    ghost predicate Arranged(options: GroupOptions, items: seq<Sprite>, o: Outcome,
                             w: Num, h: Num, calls: seq<ContainerCall>, a: Area)
      reads this, options.container
    {
      var c := options.container;
      o == (if PositionOk(options) then Pass else Fail(WrongPosition)) &&
      (if options.size.Some? then c.width == options.size.value.width && c.height == options.size.value.height
       else c.width == w && c.height == h) &&
      c.calls == calls + SetGroupCalls(options, items) &&
      area == (if o.Fail? then a else if options.area.Some? then options.area.value
               else DefaultArea(c.width, c.height))
    }

    /** The allocation and the first statement of the constructor
        (src/group.ts:50-51): a zero area, both modes off. */
    constructor()
      ensures list == null && container == null
      ensures !groupKeyMode && !numberKeyMode && area == ZeroArea
    {
      list, container := null, null;
      groupKeyMode, numberKeyMode := false, false;
      area := ZeroArea;
    }

    /** The rest of the constructor (src/group.ts:53-57): keyed set-up for
        `key`, indexed set-up otherwise. It throws when the position option
        is malformed, after the members were tagged and marked and the
        container resized. */
    method Init(input: GroupInput, options: GroupOptions) returns (o: Outcome)
      requires options.key <==> input.KeyedList?
      modifies this, options.container, InputSprites(input)
      ensures Valid() && container == options.container
      ensures input.KeyedList? ==>
        fresh(list) && list.items == PairSprites(input.pairs) &&
        groupKeyMode && numberKeyMode == old(numberKeyMode) &&
        forall s :: s in list.items ==>
          s.Snapshot() ==
          Marked(WithTag(old(s.Snapshot()), LastKeyOf(input.pairs, |input.pairs|, s)), !options.cleanControl)
      ensures input.SpriteList? ==>
        list == input.members && list.items == old(input.members.items) &&
        numberKeyMode && groupKeyMode == old(groupKeyMode) &&
        forall j :: 0 <= j < |list.items| ==>
          list.items[j].Snapshot() == Marked(old(input.members.items[j].Snapshot()), !options.cleanControl)
      ensures Arranged(options, list.items, o, old(options.container.width), old(options.container.height),
                       old(options.container.calls), old(area))
    {
      if options.key {
        o := KeySetter(input.pairs, options);
      } else {
        o := DefaultSetter(input.members, options);
      }
    }

    /** keySetter (src/group.ts:65-75): a new array of the paired sprites in
        order, each tagged with its key; duplicate keys are accepted. */
    method KeySetter(pairs: seq<(string, Sprite)>, options: GroupOptions) returns (o: Outcome)
      modifies this, options.container, PairSprites(pairs)
      ensures Valid() && container == options.container
      ensures fresh(list) && list.items == PairSprites(pairs)
      ensures groupKeyMode && numberKeyMode == old(numberKeyMode)
      ensures forall s :: s in list.items ==>
        s.Snapshot() == Marked(WithTag(old(s.Snapshot()), LastKeyOf(pairs, |pairs|, s)), !options.cleanControl)
      ensures Arranged(options, list.items, o, old(options.container.width), old(options.container.height),
                       old(options.container.calls), old(area))
    {
      var members := TagPairs(pairs);
      list := members;
      groupKeyMode := true;
      ghost var tagged := Snapshots(members.items);
      o := SetGroup(options);
      forall s | s in members.items
        ensures s.Snapshot() == Marked(WithTag(old(s.Snapshot()), LastKeyOf(pairs, |pairs|, s)), !options.cleanControl)
      {
        var j :| 0 <= j < |members.items| && members.items[j] == s;
        assert tagged[j] == WithTag(old(s.Snapshot()), LastKeyOf(pairs, |pairs|, s));
      }
    }

    /** defaultSetter (src/group.ts:82-87): the group keeps the caller's
        array itself and switches indexed lookup on; members get no tag. */
    method DefaultSetter(given: SpriteArray, options: GroupOptions) returns (o: Outcome)
      modifies this, options.container, given.items
      ensures Valid() && container == options.container
      ensures list == given && given.items == old(given.items)
      ensures numberKeyMode && groupKeyMode == old(groupKeyMode)
      ensures forall j :: 0 <= j < |given.items| ==>
        given.items[j].Snapshot() == Marked(old(given.items[j].Snapshot()), !options.cleanControl)
      ensures Arranged(options, given.items, o, old(options.container.width), old(options.container.height),
                       old(options.container.calls), old(area))
    {
      list := given;
      numberKeyMode := true;
      o := SetGroup(options);
    }

    /** setGroup (src/group.ts:94-124): take the container, mark the members
        unless `cleanControl`, apply the size, set the position (throwing on
        an array whose length is not two), add every member to the container,
        and set the area: the given one, or one derived from the container. */
    method SetGroup(options: GroupOptions) returns (o: Outcome)
      requires list != null
      modifies this, options.container, list.items
      ensures Valid() && container == options.container
      ensures list == old(list) && list.items == old(list.items)
      ensures groupKeyMode == old(groupKeyMode) && numberKeyMode == old(numberKeyMode)
      ensures forall j :: 0 <= j < |list.items| ==>
        list.items[j].Snapshot() == Marked(old(list.items[j].Snapshot()), !options.cleanControl)
      ensures Arranged(options, list.items, o, old(options.container.width), old(options.container.height),
                       old(options.container.calls), old(area))
    {
      var stage := options.container;
      container := stage;
      if !options.cleanControl {
        SetGroupInSprite();
      }
      o := Arrange(stage, options, list.items);
      if o.Pass? {
        if options.area.None? {
          area := area.(min := Size(stage.width, stage.height));
          area := area.(max := Size(Mul(stage.width, Fin(2.0)), Mul(stage.height, Fin(2.0))));
        } else {
          area := options.area.value;
        }
      }
    }

    /** setGroupInSprite (src/group.ts:129-131): `_simpleGroupAdded` on
        every member. */
    method SetGroupInSprite()
      requires list != null
      modifies list.items
      ensures forall j :: 0 <= j < |list.items| ==>
        list.items[j].Snapshot() == Marked(old(list.items[j].Snapshot()), true)
    {
      var items := list.items;
      for i := 0 to |items|
        invariant forall s :: s in items ==> s.Snapshot() == Marked(old(s.Snapshot()), s in items[..i])
      {
        assert items[..i + 1] == items[..i] + [items[i]];
        label before:
        items[i].marks := items[i].marks.(simpleGroup := true);
        forall s | s in items ensures s.Snapshot() == Marked(old(s.Snapshot()), s in items[..i + 1]) {
          if s != items[i] {
            assert s.Snapshot() == old@before(s.Snapshot());
          }
        }
      }
      assert items[..|items|] == items;
      forall j | 0 <= j < |items| ensures items[j].Snapshot() == Marked(old(items[j].Snapshot()), true) {
        assert items[j] in items;
      }
    }

    /** append (src/group.ts:138-142): the group's container becomes a
        child of `stage`; the group itself is returned for chaining. */
    method Append(stage: Container) returns (r: SimpleGroup)
      requires Valid()
      modifies stage
      ensures r == this
      ensures stage.calls == old(stage.calls) + [Mounted(container)]
      ensures stage.width == old(stage.width) && stage.height == old(stage.height)
    {
      stage.calls := stage.calls + [Mounted(container)];
      r := this;
    }

    /** getSprites (src/group.ts:148-150): the stored array itself, which in
        indexed mode is the caller's. */
    function GetSprites(): (r: SpriteArray?)
      reads this
      ensures r == list
    {
      list
    }

    /** setSprites (src/group.ts:157-159): indexed set-up on a new array.
        Keyed lookup stays on if it was. */
    method SetSprites(given: SpriteArray, options: GroupOptions) returns (o: Outcome)
      modifies this, options.container, given.items
      ensures Valid() && list == given && given.items == old(given.items)
      ensures container == options.container
      ensures numberKeyMode && groupKeyMode == old(groupKeyMode)
      ensures forall j :: 0 <= j < |given.items| ==>
        given.items[j].Snapshot() == Marked(old(given.items[j].Snapshot()), !options.cleanControl)
      ensures Arranged(options, given.items, o, old(options.container.width), old(options.container.height),
                       old(options.container.calls), old(area))
    {
      o := DefaultSetter(given, options);
    }

    /** getContainer (src/group.ts:165-167). */
    function GetContainer(): (r: Container?)
      reads this
      ensures r == container
    {
      container
    }

    /** setContainer (src/group.ts:173-175): only the container changes. */
    method SetContainer(stage: Container)
      modifies this
      ensures GetContainer() == stage
      ensures list == old(list) && area == old(area)
      ensures groupKeyMode == old(groupKeyMode) && numberKeyMode == old(numberKeyMode)
    {
      container := stage;
    }

    /** getArea (src/group.ts:181-183). */
    function GetArea(): (r: Area)
      reads this
      ensures r == area
    {
      area
    }

    /** setArea (src/group.ts:189-191): the next getArea returns what was
        set, and nothing else changes. */
    method SetArea(a: Area)
      modifies this
      ensures GetArea() == a
      ensures list == old(list) && container == old(container)
      ensures groupKeyMode == old(groupKeyMode) && numberKeyMode == old(numberKeyMode)
    {
      area := a;
    }

    /** getSprite (src/group.ts:198-223). A string key needs keyed mode and
        one member carrying it; a number key needs the keyed mode off and a
        member at that position. */
    function GetSprite(key: Key): (r: Result<Sprite>)
      requires Valid()
      reads this, list, list.items
      ensures r.Ok? ==> r.value in list.items
    {
      if key.Name? && !groupKeyMode then Err(KeyNotEnabled)
      else if key.Index? && groupKeyMode then Err(NumberWhileKeyed)
      else if groupKeyMode then
        var found := WithKey(list.items, key.name);
        WithKeySound(list.items, key.name);
        if |found| == 1 then Ok(found[0]) else Err(NotExistsOrDuplicated)
      else if 0 <= key.index < |list.items| then Ok(list.items[key.index])
      else Err(SpriteNotExists)
    }

    /** The four outcomes of getSprite, each in terms of the group's state:
        the two mode mismatches, keyed lookup that succeeds exactly when one
        position carries the tag, and indexed lookup that fails exactly when
        there is no member at the position. */
    lemma GetSpriteCases(key: Key)
      requires Valid()
      ensures key.Name? && !groupKeyMode ==> GetSprite(key) == Err(KeyNotEnabled)
      ensures key.Index? && groupKeyMode ==> GetSprite(key) == Err(NumberWhileKeyed)
      ensures key.Name? && groupKeyMode ==>
        (GetSprite(key).Ok? <==> exists i :: OnlyAt(list.items, key.name, i)) &&
        (GetSprite(key).Err? ==> GetSprite(key).error == NotExistsOrDuplicated) &&
        forall i :: OnlyAt(list.items, key.name, i) ==> GetSprite(key) == Ok(list.items[i])
      ensures key.Index? && !groupKeyMode ==>
        (GetSprite(key).Ok? <==> 0 <= key.index < |list.items|) &&
        (GetSprite(key).Err? ==> GetSprite(key).error == SpriteNotExists) &&
        (GetSprite(key).Ok? ==> GetSprite(key).value == list.items[key.index])
    {
      if key.Name? {
        WithKeySingle(list.items, key.name);
      }
    }

    /** add (src/group.ts:230-239): tag the sprite and append it to the end
        of the array, in place. In keyed mode the tag is the pair's key; in
        indexed mode it is the array's length before the push minus one. A
        bare sprite given to a keyed group has no element `[1]`, so writing
        the tag onto it throws a TypeError before anything changes. */
    method Add(entry: Entry) returns (o: Outcome)
      requires Valid()
      requires !groupKeyMode ==> entry.Plain?
      modifies list, entry.sprite
      ensures groupKeyMode && entry.Plain? ==>
        o == Fail(TypeError) && list.items == old(list.items) &&
        entry.sprite.Snapshot() == old(entry.sprite.Snapshot())
      ensures !(groupKeyMode && entry.Plain?) ==>
        o == Pass && list.items == old(list.items) + [entry.sprite]
      ensures entry.Tagged? ==>
        entry.sprite.Snapshot() == old(entry.sprite.Snapshot()).(groupKey := Some(entry.key))
      ensures !groupKeyMode ==>
        entry.sprite.Snapshot() == old(entry.sprite.Snapshot()).(numberKey := Some(|old(list.items)| - 1))
    {
      if groupKeyMode {
        if entry.Plain? {
          return Fail(TypeError);
        }
        entry.sprite.groupKey := Some(entry.key);
        list.items := list.items + [entry.sprite];
      } else {
        entry.sprite.numberKey := Some(|list.items| - 1);
        list.items := list.items + [entry.sprite];
      }
      o := Pass;
    }

    /** remove (src/group.ts:245-263). The key is looked up first, so a
        failed lookup throws before anything changes. Otherwise keyed mode
        replaces the array by a new one without that tag, indexed mode
        splices the position out of the array in place; the removed sprite
        leaves the container, becomes invisible and is destroyed. */
    method Remove(key: Key) returns (o: Outcome)
      requires Valid()
      modifies this, list, container, GetSpriteSet(key)
      ensures Valid() && container == old(container) && area == old(area)
      ensures container.width == old(container.width) && container.height == old(container.height)
      ensures old(GetSprite(key)).Err? ==>
        o == Fail(old(GetSprite(key)).error) &&
        list == old(list) && list.items == old(list.items) &&
        container.calls == old(container.calls) &&
        forall s :: s in old(list.items) ==> s.Snapshot() == old(s.Snapshot())
      ensures old(GetSprite(key)).Ok? ==>
        var s := old(GetSprite(key)).value;
        o == Pass &&
        s.Snapshot() == old(s.Snapshot()).(visible := false, destroyed := true) &&
        container.calls == old(container.calls) + [Removed(s)] &&
        (groupKeyMode && key.Name? ==>
          fresh(list) && list.items == old(WithoutKey(list.items, key.name)) &&
          old(list).items == old(list.items)) &&
        (!groupKeyMode && key.Index? ==>
          list == old(list) &&
          list.items == old(list.items)[..key.index] + old(list.items)[key.index + 1..])
      ensures groupKeyMode == old(groupKeyMode) && numberKeyMode == old(numberKeyMode)
    {
      var found := GetSprite(key);
      if found.Err? {
        return Fail(found.error);
      }
      var sprite := found.value;
      if groupKeyMode {
        var rest := WithoutKey(list.items, key.name);
        list := new SpriteArray(rest);
      } else {
        list.items := list.items[..key.index] + list.items[key.index + 1..];
      }
      container.calls := container.calls + [Removed(sprite)];
      sprite.visible := false;
      sprite.destroyed := true;
      o := Pass;
    }

    /** The sprite a lookup would return, as a frame. */
    function GetSpriteSet(key: Key): set<Sprite>
      requires Valid()
      reads this, list, list.items
    {
      if GetSprite(key).Ok? then {GetSprite(key).value} else {}
    }

    /** A removal in keyed mode takes out exactly the one position carrying
        the tag and keeps the others in order. */
    lemma RemoveKeyedDropsOnePosition(name: string)
      requires Valid() && groupKeyMode && GetSprite(Name(name)).Ok?
      ensures exists i ::
        OnlyAt(list.items, name, i) &&
        WithoutKey(list.items, name) == list.items[..i] + list.items[i + 1..]
    {
      GetSpriteCases(Name(name));
      var i :| OnlyAt(list.items, name, i);
      WithoutKeyDropsOne(list.items, name, i);
    }

    /** E_hitEffect (src/group.ts:286-304): for each member in order, throw
        if it lacks the bump or d20 flag, skip it if it is the target in an
        active mode, and otherwise run its box test against the target and,
        on a hit, every callback in the array with the member. The returned
        trace lists the invocations; callbacks' own effects are not modelled. */
    method EHitEffect(target: Sprite, execute: seq<Callback>) returns (o: Outcome, trace: seq<Call>)
      requires Valid()
      modifies list.items, target
      ensures var s := Sweep(old(Snapshots(list.items)), old(target.Snapshot()),
                             groupKeyMode, numberKeyMode, execute);
        o == (if s.failed then Fail(BumpOrD20Missing) else Pass) &&
        trace == s.calls &&
        Swept(list.items, target,
              old(Snapshots(list.items)), old(target.Snapshot()), s.tested)
    {
      ghost var s;
      SweptAtStart(list.items, target);
      o, trace, s := SweepMembers(list.items, target, groupKeyMode, numberKeyMode, execute,
                                  Snapshots(list.items), target.Snapshot());
    }
  }

  /** PGroup.createGroup (src/group.ts:406-408): `new SimpleGroup`, which
      throws on a malformed position after its side effects on the members
      and the container have happened. Either way the members are tagged
      (keyed input) and marked (unless `cleanControl`), and the container is
      sized, positioned and given every member. */
  method CreateGroup(input: GroupInput, options: GroupOptions) returns (r: Result<SimpleGroup>)
    requires options.key <==> input.KeyedList?
    modifies options.container, InputSprites(input)
    ensures r.Err? <==> !PositionOk(options)
    ensures r.Err? ==> r.error == WrongPosition
    ensures r.Ok? ==>
      var g := r.value;
      fresh(g) && g.Valid() && g.container == options.container &&
      (options.area.Some? ==> g.area == options.area.value) &&
      (options.area.None? ==> g.area == DefaultArea(options.container.width, options.container.height)) &&
      (input.KeyedList? ==> g.groupKeyMode && !g.numberKeyMode && fresh(g.list) &&
                            g.list.items == PairSprites(input.pairs)) &&
      (input.SpriteList? ==> g.numberKeyMode && !g.groupKeyMode && g.list == input.members)
    ensures input.KeyedList? ==>
      forall s :: s in PairSprites(input.pairs) ==>
        s.Snapshot() ==
        Marked(WithTag(old(s.Snapshot()), LastKeyOf(input.pairs, |input.pairs|, s)), !options.cleanControl)
    ensures input.SpriteList? ==>
      input.members.items == old(input.members.items) &&
      forall j :: 0 <= j < |input.members.items| ==>
        input.members.items[j].Snapshot() == Marked(old(input.members.items[j].Snapshot()), !options.cleanControl)
    ensures options.size.Some? ==>
      options.container.width == options.size.value.width &&
      options.container.height == options.size.value.height
    ensures options.size.None? ==>
      options.container.width == old(options.container.width) &&
      options.container.height == old(options.container.height)
    ensures options.container.calls == old(options.container.calls) + SetGroupCalls(options, InputSprites(input))
  {
    var g := new SimpleGroup();
    var o := g.Init(input, options);
    if o.Fail? {
      return Err(o.error);
    }
    r := Ok(g);
  }
}
