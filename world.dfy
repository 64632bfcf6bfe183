/**
 * Scene objects as the voice agent sees them: a name, a position and the
 * components attached to it.  Each record is a snapshot of one game object
 * taken after its `Awake`/`Start` has run.
 */
module World {
  import opened Actions

  datatype Option<T> = None | Some(value: T)

  datatype Vec3 = Vec3(x: real, y: real, z: real)

  function SquaredDistance(a: Vec3, b: Vec3): (r: real)
    ensures r >= 0.0
  {
    (a.x - b.x) * (a.x - b.x) + (a.y - b.y) * (a.y - b.y) + (a.z - b.z) * (a.z - b.z)
  }

  /**
   * The squared distance from `player` to `p` with `p`'s height replaced by
   * the player's, as `Hidingspot.PlanarDistanceToPlayer` measures it.
   */
  function PlanarSquaredDistance(player: Vec3, p: Vec3): (r: real)
    ensures r == SquaredDistance(player, Vec3(p.x, player.y, p.z))
  {
    (player.x - p.x) * (player.x - p.x) + (player.z - p.z) * (player.z - p.z)
  }

  /** Height plays no part in the planar distance. */
  lemma PlanarIgnoresHeight(player: Vec3, p: Vec3, h: real, h': real)
    ensures PlanarSquaredDistance(player, p) == PlanarSquaredDistance(Vec3(player.x, h, player.z), Vec3(p.x, h', p.z))
  {
  }

  /**
   * `sqrt(d2) < r`, stated without the square root: for a non-negative
   * squared distance this holds exactly when `r` is positive and `d2 < r*r`.
   */
  predicate Below(d2: real, r: real) { r > 0.0 && d2 < r * r }

  /** Comparing squared distances orders the distances themselves. */
  lemma BelowMeansCloser(d: real, r: real)
    requires d >= 0.0
    ensures Below(d * d, r) <==> d < r
  {
    var dd, dr, rr := d * d, d * r, r * r;
    if d < r {
      assert dd <= dr;
      assert dr < rr;
    } else if r > 0.0 {
      assert dd >= dr;
      assert dr >= rr;
    }
  }

  /** The scripts that override `Interactable`'s virtual members. */
  datatype Kind = Plain | HidingspotKind | ButtonKind | LeverKind | CrateKind | ChairKind

  datatype InteractableView = InteractableView(
    kind: Kind,
    synonyms: seq<string>,
    useSynonyms: seq<string>,
    possibleInteractions: seq<Action>)

  datatype PickUpView = PickUpView(synonyms: seq<string>)

  /** A room switcher and the instance id of the room root it leads to. */
  datatype SwitcherView = SwitcherView(synonyms: seq<string>, room: int)

  datatype WorldObject = WorldObject(
    id: int,
    name: string,
    position: Vec3,
    interactable: Option<InteractableView>,
    pickUp: Option<PickUpView>,
    switcher: Option<SwitcherView>)

  predicate IsInteractable(o: WorldObject) { o.interactable.Some? }

  predicate IsHidingspot(o: WorldObject) { o.interactable.Some? && o.interactable.value.kind == HidingspotKind }

  predicate IsPickUp(o: WorldObject) { o.pickUp.Some? }

  predicate IsSwitcher(o: WorldObject) { o.switcher.Some? }

  /**
   * The list an interactable's `StartInteraction` hands back: the chair offers
   * its single "sit down" action, every other script its `possibleInteractions`.
   */
  function StartInteractionResult(o: WorldObject): (r: seq<Action>)
    requires IsInteractable(o)
    ensures o.interactable.value.kind == ChairKind ==> r == [Action("sit down", "Sit", o.name)]
    ensures o.interactable.value.kind != ChairKind ==> r == o.interactable.value.possibleInteractions
  {
    if o.interactable.value.kind == ChairKind then [Action("sit down", "Sit", o.name)]
    else o.interactable.value.possibleInteractions
  }

  /** Index of the first object whose normalised name is `n`. */
  predicate FirstNamed(objs: seq<WorldObject>, n: string, k: int)
  {
    0 <= k < |objs| && NormalizedName(objs[k].name) == n
    && forall j :: 0 <= j < k ==> NormalizedName(objs[j].name) != n
  }

  /** A linear search by normalised name: the first match, or none. */
  function FindByName(objs: seq<WorldObject>, n: string): (r: Option<WorldObject>)
    ensures r.None? <==> forall j :: 0 <= j < |objs| ==> NormalizedName(objs[j].name) != n
    ensures r.Some? ==> exists k :: FirstNamed(objs, n, k) && r.value == objs[k]
  {
    if objs == [] then None
    else if NormalizedName(objs[0].name) == n then (assert FirstNamed(objs, n, 0); Some(objs[0]))
    else
      var rest := FindByName(objs[1..], n);
      if rest.Some? then
        var k :| FirstNamed(objs[1..], n, k) && rest.value == objs[1..][k];
        assert FirstNamed(objs, n, k + 1);
        rest
      else rest
  }

  /** The loop of every by-name lookup: the first object whose normalised name is `n`. */
  method SearchByName(objs: seq<WorldObject>, n: string) returns (r: Option<WorldObject>)
    ensures r == FindByName(objs, n)
  {
    var i := 0;
    while i < |objs|
      invariant 0 <= i <= |objs|
      invariant FindByName(objs, n) == FindByName(objs[i..], n)
    {
      assert objs[i..][1..] == objs[i + 1..];
      if NormalizedName(objs[i].name) == n {
        return Some(objs[i]);
      }
      i := i + 1;
    }
    return None;
  }

  /**
   * `k` is where a scan keeping the running minimum under strict `<`
   * ends: a least value, and no earlier index holds that value.
   */
  predicate IsEarliestMin(ds: seq<real>, k: int)
  {
    0 <= k < |ds|
    && (forall j :: 0 <= j < |ds| ==> ds[k] <= ds[j])
    && (forall j :: 0 <= j < k ==> ds[k] < ds[j])
  }

  /** Planar squared distances from `player` to each object. */
  function PlanarDistances(player: Vec3, objs: seq<WorldObject>): (r: seq<real>)
    ensures |r| == |objs|
    ensures forall i :: 0 <= i < |objs| ==> r[i] == PlanarSquaredDistance(player, objs[i].position)
  {
    if objs == [] then [] else [PlanarSquaredDistance(player, objs[0].position)] + PlanarDistances(player, objs[1..])
  }

  /** At most one index is the earliest minimum. */
  lemma EarliestMinUnique(ds: seq<real>, k: int, k': int)
    requires IsEarliestMin(ds, k) && IsEarliestMin(ds, k')
    ensures k == k'
  {
    assert ds[k] == ds[k'];
  }

  /** The index a left-to-right scan keeping the strictly smaller value ends on; -1 when empty. */
  function EarliestMinIndex(ds: seq<real>): (k: int)
    ensures ds == [] ==> k == -1
    ensures ds != [] ==> IsEarliestMin(ds, k)
  {
    if ds == [] then -1
    else
      var init := ds[..|ds| - 1];
      var k := EarliestMinIndex(init);
      if k == -1 || ds[|ds| - 1] < ds[k] then |ds| - 1 else k
  }

  /** One step of the scan: the earliest minimum of a longer prefix, from the shorter one's. */
  lemma EarliestMinStep(ds: seq<real>, i: nat)
    requires i < |ds|
    ensures EarliestMinIndex(ds[..i + 1])
      == (var k := EarliestMinIndex(ds[..i]); if k == -1 || ds[i] < ds[k] then i else k)
  {
    assert ds[..i + 1][..i] == ds[..i];
  }

  /**
   * The object a closest-object scan returns: none for an empty list,
   * otherwise the earliest one at the least planar distance from `player`.
   */
  function Closest(player: Vec3, objs: seq<WorldObject>): (r: Option<WorldObject>)
    ensures r.None? <==> objs == []
    ensures r.Some? ==> exists k :: IsEarliestMin(PlanarDistances(player, objs), k) && r.value == objs[k]
  {
    var k := EarliestMinIndex(PlanarDistances(player, objs));
    if k == -1 then None else Some(objs[k])
  }

  /** An on/off switch on a camera's game object. */
  class Camera {
    var active: bool

    constructor (active: bool)
      ensures this.active == active
    {
      this.active := active;
    }
  }
}
