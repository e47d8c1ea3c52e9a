/** The collision-layer tables handed to the physics engine
    (src/core/jolt_physics.cpp:40-138): two object layers, each with its own
    broad-phase layer, and the two filters that decide which layers are
    tested against each other. Static geometry never collides with static
    geometry; moving bodies collide with everything. */
module CollisionLayers {

  /** Jolt's `ObjectLayer`: a 16-bit unsigned integer. */
  newtype ObjectLayer = x: int | 0 <= x < 0x1_0000

  /** Jolt's `BroadPhaseLayer`: a wrapper around an 8-bit unsigned integer. */
  newtype BroadPhaseLayer = x: int | 0 <= x < 0x100

  /** `Layers` (lines 40-45). */
  const NonMoving: ObjectLayer := 0
  const Moving: ObjectLayer := 1
  const NumLayers: ObjectLayer := 2

  /** `BroadPhaseLayers` (lines 52-57). */
  const BroadPhaseNonMoving: BroadPhaseLayer := 0
  const BroadPhaseMoving: BroadPhaseLayer := 1
  const NumBroadPhaseLayers: nat := 2

  /** An object layer the tables are defined for. */
  predicate ValidLayer(l: ObjectLayer)
  {
    l < NumLayers
  }

  /** The table `mObjectToBroadPhase` as the constructor of `BPLayerInterfaceImpl`
      fills it: one broad-phase layer per object layer, each layer to its namesake. */
  function LayerTable(): (m: seq<BroadPhaseLayer>)
    ensures |m| == NumLayers as int
    ensures m[NonMoving] == BroadPhaseNonMoving && m[Moving] == BroadPhaseMoving
  {
    var m := seq(NumLayers as int, _ => BroadPhaseNonMoving);
    var m := m[NonMoving as int := BroadPhaseNonMoving];
    m[Moving as int := BroadPhaseMoving]
  }

  /** `GetNumBroadPhaseLayers`: every entry of the table is below it. */
  function GetNumBroadPhaseLayers(): (n: nat)
    ensures forall l :: 0 <= l < |LayerTable()| ==> LayerTable()[l] as int < n
  {
    NumBroadPhaseLayers
  }

  /** `GetBroadPhaseLayer`: the table entry of a valid object layer
      (the `JPH_ASSERT` on line 78 is the precondition). */
  function GetBroadPhaseLayer(l: ObjectLayer): (b: BroadPhaseLayer)
    requires ValidLayer(l)
    ensures b as int < GetNumBroadPhaseLayers()
    ensures b as int == l as int
  {
    LayerTable()[l]
  }

  /** `GetBroadPhaseLayerName` (lines 82-96), compiled in only with profiling;
      the unreachable `default` arm returns "INVALID" once the assert is off. */
  function BroadPhaseLayerName(b: BroadPhaseLayer): (s: string)
    ensures b == BroadPhaseNonMoving ==> s == "NON_MOVING"
    ensures b == BroadPhaseMoving ==> s == "MOVING"
    ensures b as int < GetNumBroadPhaseLayers() <==> s != "INVALID"
  {
    if b == BroadPhaseNonMoving then "NON_MOVING"
    else if b == BroadPhaseMoving then "MOVING"
    else "INVALID"
  }

  /** The names tell the broad-phase layers apart: each layer below the
      count is the only one carrying its name. */
  lemma LayerNamesDistinct(b1: BroadPhaseLayer, b2: BroadPhaseLayer)
    requires b1 as int < GetNumBroadPhaseLayers()
    requires BroadPhaseLayerName(b1) == BroadPhaseLayerName(b2)
    ensures b1 == b2
  {
  }

  /** `ObjectVsBroadPhaseLayerFilterImpl::ShouldCollide` (lines 106-118): a
      static object is tested only against the moving tree, a moving one
      against every tree; an unknown object layer, past its assert, collides
      with nothing. */
  predicate ObjectVsBroadPhaseShouldCollide(l1: ObjectLayer, l2: BroadPhaseLayer)
    ensures !ValidLayer(l1) ==> !ObjectVsBroadPhaseShouldCollide(l1, l2)
    ensures l1 == Moving ==> ObjectVsBroadPhaseShouldCollide(l1, l2)
  {
    if l1 == NonMoving then l2 == BroadPhaseMoving
    else if l1 == Moving then true
    else false
  }

  /** `ObjectLayerPairFilterImpl::ShouldCollide` (lines 125-137): a static
      body collides only with a moving one, a moving body with anything; an
      unknown first layer, past its assert, collides with nothing. */
  predicate ObjectPairShouldCollide(l1: ObjectLayer, l2: ObjectLayer)
    ensures !ValidLayer(l1) ==> !ObjectPairShouldCollide(l1, l2)
    ensures l1 == Moving ==> ObjectPairShouldCollide(l1, l2)
  {
    if l1 == NonMoving then l2 == Moving
    else if l1 == Moving then true
    else false
  }

  /** The table maps distinct object layers to distinct broad-phase layers. */
  lemma LayerMapInjective(l1: ObjectLayer, l2: ObjectLayer)
    requires ValidLayer(l1) && ValidLayer(l2)
    requires GetBroadPhaseLayer(l1) == GetBroadPhaseLayer(l2)
    ensures l1 == l2
  {
  }

  /** Every broad-phase layer is the table entry of some object layer: with
      `LayerMapInjective`, the table is a one-to-one correspondence. */
  function ObjectLayerOf(b: BroadPhaseLayer): (l: ObjectLayer)
    requires b as int < GetNumBroadPhaseLayers()
    ensures ValidLayer(l) && GetBroadPhaseLayer(l) == b
  {
    b as int as ObjectLayer
  }

  /** On valid layers the pair filter is symmetric. */
  lemma PairSymmetric(l1: ObjectLayer, l2: ObjectLayer)
    requires ValidLayer(l1) && ValidLayer(l2)
    ensures ObjectPairShouldCollide(l1, l2) == ObjectPairShouldCollide(l2, l1)
  {
  }

  /** Past the asserts the pair filter is not symmetric: a moving body
      collides with a body of an unknown layer, but not the other way round. */
  lemma PairAsymmetricOnUnknownLayer()
    ensures ObjectPairShouldCollide(Moving, NumLayers)
    ensures !ObjectPairShouldCollide(NumLayers, Moving)
  {
  }

  /** The one pair of valid layers that is not tested is static against static. */
  lemma OnlyStaticPairSkipped(l1: ObjectLayer, l2: ObjectLayer)
    requires ValidLayer(l1) && ValidLayer(l2)
    ensures !ObjectPairShouldCollide(l1, l2) <==> l1 == NonMoving && l2 == NonMoving
  {
  }

  /** The broad-phase filter agrees with the pair filter seen through the
      layer table: testing an object against the tree of layer `l2` decides
      what testing it against a body of layer `l2` decides. */
  lemma FilterConsistency(l1: ObjectLayer, l2: ObjectLayer)
    requires ValidLayer(l1) && ValidLayer(l2)
    ensures ObjectVsBroadPhaseShouldCollide(l1, GetBroadPhaseLayer(l2)) == ObjectPairShouldCollide(l1, l2)
  {
  }
}
