/** The terrain height-field `hm[x][z]` and the level plateau stamped into it
    under the decorative landmark (src/core/chunk.c:5, 81-92). */
module HeightField {

  /** Height samples indexed `[x][z]`. */
  type Field = seq<seq<int>>

  /** `hm` is a `dimx` by `dimz` array of samples. */
  predicate WellFormed(hm: Field, dimx: nat, dimz: nat)
  {
    |hm| == dimx && forall x :: 0 <= x < dimx ==> |hm[x]| == dimz
  }

  /** Footprint of the landmark along x and z and the plateau height
      (`gsu_x`, `gsu_z`, `gsu_y`). */
  const LandmarkWidth: int := 64
  const LandmarkDepth: int := 32
  const PlateauHeight: int := 50

  /** Plateau extent relative to the centre cell's origin: from `-gsu_x / 2`
      up to, excluding, `(int)(1.5f * gsu_x)`, and likewise along z. */
  const PlateauLowX: int := -LandmarkWidth / 2
  const PlateauHighX: int := 3 * LandmarkWidth / 2
  const PlateauLowZ: int := -LandmarkDepth / 2
  const PlateauHighZ: int := 3 * LandmarkDepth / 2

  /** Sample `(x, z)` lies on the plateau stamped around origin `(x0, z0)`. */
  predicate InPlateau(x: int, z: int, x0: int, z0: int)
  {
    x0 + PlateauLowX <= x < x0 + PlateauHighX && z0 + PlateauLowZ <= z < z0 + PlateauHighZ
  }

  /** Every write of the stamp around `(x0, z0)` lands inside a `dimx` by `dimz` field. */
  predicate PlateauFits(dimx: nat, dimz: nat, x0: int, z0: int)
  {
    0 <= x0 + PlateauLowX && x0 + PlateauHighX <= dimx &&
    0 <= z0 + PlateauLowZ && z0 + PlateauHighZ <= dimz
  }

  /** `after` is `before` with exactly the plateau rectangle set to the plateau height. */
  ghost predicate IsPlateauStamp(before: Field, after: Field, x0: int, z0: int)
  {
    && |after| == |before|
    && (forall x :: 0 <= x < |before| ==> |after[x]| == |before[x]|)
    && (forall x, z :: 0 <= x < |before| && 0 <= z < |before[x]| ==>
          after[x][z] == if InPlateau(x, z, x0, z0) then PlateauHeight else before[x][z])
  }

  /** The nested stamping loop of create_chunk_op: writes the plateau height on
      every sample of the plateau around the centre cell's origin `(x0, z0)`. */
  method StampPlateau(hm: Field, dimx: nat, dimz: nat, x0: int, z0: int) returns (r: Field)
    requires WellFormed(hm, dimx, dimz)
    requires PlateauFits(dimx, dimz, x0, z0)
    ensures WellFormed(r, dimx, dimz)
    ensures IsPlateauStamp(hm, r, x0, z0)
  {
    r := hm;
    var ix := PlateauLowX;
    while ix < PlateauHighX
      invariant PlateauLowX <= ix <= PlateauHighX
      invariant WellFormed(r, dimx, dimz)
      invariant forall x, z :: 0 <= x < dimx && 0 <= z < dimz ==>
          r[x][z] == if InPlateau(x, z, x0, z0) && x < x0 + ix then PlateauHeight else hm[x][z]
    {
      var iz := PlateauLowZ;
      while iz < PlateauHighZ
        invariant PlateauLowZ <= iz <= PlateauHighZ
        invariant WellFormed(r, dimx, dimz)
        invariant forall x, z :: 0 <= x < dimx && 0 <= z < dimz ==>
            r[x][z] == if (InPlateau(x, z, x0, z0) && x < x0 + ix) || (x == x0 + ix && z0 + PlateauLowZ <= z < z0 + iz)
                       then PlateauHeight else hm[x][z]
      {
        r := r[x0 + ix := r[x0 + ix][z0 + iz := PlateauHeight]];
        iz := iz + 1;
      }
      ix := ix + 1;
    }
  }
}
