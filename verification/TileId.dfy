// Tile ids (crates/mmpf-pmtiles/src/format.rs): a tile's position on its zoom
// level's Hilbert curve, after all tiles of the lower zooms. The curve itself is
// a parameter.
module TileId {
  import opened Types

  const MAX_ZOOM: nat := 31
  const MAX_TILE_ID: nat := 6_148_914_691_236_517_204

  datatype TileCoord = TileCoord(z: nat, x: nat, y: nat)

  function Pow4(k: nat): (p: nat)
    ensures p >= 1
  {
    if k == 0 then 1 else 4 * Pow4(k - 1)
  }

  function Pow2(k: nat): (p: nat)
    ensures p >= 1
  {
    if k == 0 then 1 else 2 * Pow2(k - 1)
  }

  // `1u64.checked_shl(2 * z)` answers nothing from z = 32 on.
  function PyramidSizeBeforeZoom(z: nat): (n: nat)
  {
    if z < 32 then (Pow4(z) - 1) / 3 else (U64_LIMIT - 1) / 3
  }

  // The number of tiles on all zooms below z.
  function TilesBelow(z: nat): (n: nat)
  {
    if z == 0 then 0 else TilesBelow(z - 1) + Pow4(z - 1)
  }

  lemma {:induction false} TilesBelowClosed(z: nat)
    ensures 3 * TilesBelow(z) + 1 == Pow4(z)
  {
    if z > 0 {
      TilesBelowClosed(z - 1);
    }
  }

  lemma Pow4At(a: nat, b: nat)
    ensures Pow4(a + b) == Pow4(a) * Pow4(b)
    decreases b
  {
    if b > 0 {
      Pow4At(a, b - 1);
      assert Pow4(a + b) == 4 * Pow4(a + (b - 1));
    }
  }

  lemma Pow4At32()
    ensures Pow4(32) == U64_LIMIT
  {
    assert Pow4(4) == 256;
    Pow4At(4, 4);
    Pow4At(8, 8);
    Pow4At(16, 16);
  }

  // The closed form is the sum it stands for, at every zoom up to the limit.
  lemma PyramidIsSum(z: nat)
    requires z <= 32
    ensures PyramidSizeBeforeZoom(z) == TilesBelow(z)
    ensures z == 32 ==> PyramidSizeBeforeZoom(z) == MAX_TILE_ID + 1
  {
    TilesBelowClosed(z);
    if z == 32 {
      Pow4At32();
    }
  }

  // `TileCoord::new` accepts exactly the tiles of zooms 0 to 31.
  predicate ValidCoord(c: TileCoord)
  {
    c.z <= MAX_ZOOM && c.x < Pow2(c.z) && c.y < Pow2(c.z)
  }

  // A curve numbers the tiles of each zoom from 0 to 4^z - 1, one to one;
  // `back` is its inverse.
  ghost predicate Curve(h: TileCoord -> nat, back: (nat, nat) -> TileCoord)
  {
    (forall c :: ValidCoord(c) ==> h(c) < Pow4(c.z) && back(c.z, h(c)) == c)
    && (forall z: nat, d: nat :: z <= MAX_ZOOM && d < Pow4(z) ==> ValidCoord(back(z, d)) && back(z, d).z == z && h(back(z, d)) == d)
  }

  function TileIdOf(c: TileCoord, h: TileCoord -> nat): (id: nat)
  {
    if c.z == 0 then 0 else PyramidSizeBeforeZoom(c.z) + h(c)
  }

  lemma {:induction false} TilesBelowMonotone(a: nat, b: nat)
    requires a < b
    ensures TilesBelow(a) + Pow4(a) <= TilesBelow(b)
    decreases b
  {
    if a < b - 1 {
      TilesBelowMonotone(a, b - 1);
    }
  }

  lemma IdInZoom(c: TileCoord, h: TileCoord -> nat, back: (nat, nat) -> TileCoord)
    requires Curve(h, back) && ValidCoord(c)
    ensures TileIdOf(c, h) == TilesBelow(c.z) + h(c) < TilesBelow(c.z + 1)
  {
    PyramidIsSum(c.z);
    assert c.z == 0 ==> Pow4(0) == 1;
  }

  // No two tiles share an id, across all zooms.
  lemma TileIdInjective(a: TileCoord, b: TileCoord, h: TileCoord -> nat, back: (nat, nat) -> TileCoord)
    requires Curve(h, back) && ValidCoord(a) && ValidCoord(b) && TileIdOf(a, h) == TileIdOf(b, h)
    ensures a == b
  {
    IdInZoom(a, h, back);
    IdInZoom(b, h, back);
    if a.z < b.z {
      TilesBelowMonotone(a.z, b.z);
    } else if b.z < a.z {
      TilesBelowMonotone(b.z, a.z);
    } else {
      assert back(a.z, h(a)) == back(b.z, h(b));
    }
  }

  lemma {:induction false} ZoomOf(id: nat, z: nat) returns (r: nat)
    requires id < TilesBelow(z)
    ensures r < z && TilesBelow(r) <= id < TilesBelow(r) + Pow4(r)
  {
    if id < TilesBelow(z - 1) {
      r := ZoomOf(id, z - 1);
    } else {
      r := z - 1;
    }
  }

  // The accepted id range is exactly the ids of the accepted tiles: an id is at
  // most `MAX_TILE_ID` if and only if some tile up to zoom 31 has it.
  lemma TileIdRange(id: nat, h: TileCoord -> nat, back: (nat, nat) -> TileCoord)
    requires Curve(h, back)
    ensures id <= MAX_TILE_ID <==> exists c :: ValidCoord(c) && TileIdOf(c, h) == id
  {
    hide TilesBelow;
    hide Pow4;
    PyramidIsSum(32);
    if id <= MAX_TILE_ID {
      var z := ZoomOf(id, 32);
      var c := back(z, id - TilesBelow(z));
      IdInZoom(c, h, back);
      assert ValidCoord(c) && TileIdOf(c, h) == id;
    }
    if c :| ValidCoord(c) && TileIdOf(c, h) == id {
      IdInZoom(c, h, back);
      if c.z + 1 < 32 {
        TilesBelowMonotone(c.z + 1, 32);
      }
    }
  }
}
