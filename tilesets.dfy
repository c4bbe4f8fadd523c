/** The size of a tile set (src/models/TileConfig.ts). */
module TileSets {

  datatype TileConfig = TileConfig(maxPip: int)

  /** The standard double-six set. */
  const DefaultTileConfig := TileConfig(6)

  /** Number of tile face images the game scene loads (src/scenes/GameScene.ts:65). */
  const LoadedTileImages := 28

  /** `((maxPip + 1) * (maxPip + 2)) / 2`: the source divides exactly (JavaScript
      numbers), and the product of two consecutive integers is even, so the
      integer quotient here is that exact value. */
  function TileCount(config: TileConfig): (n: int)
    ensures 2 * n == (config.maxPip + 1) * (config.maxPip + 2)
  {
    ProductOfConsecutiveIsEven(config.maxPip + 1);
    ((config.maxPip + 1) * (config.maxPip + 2)) / 2
  }

  /** Whole-number division: one of two consecutive integers is even. */
  lemma ProductOfConsecutiveIsEven(a: int)
    ensures (a * (a + 1)) % 2 == 0
  {
    var h := a / 2;
    if a % 2 == 0 {
      assert a == 2 * h;
      assert a * (a + 1) == 2 * (h * (a + 1));
    } else {
      assert a + 1 == 2 * (h + 1);
      assert a * (a + 1) == 2 * (a * (h + 1));
    }
  }

  /** The double-six set has 28 tiles, one per loaded tile image. */
  lemma DoubleSixCount()
    ensures TileCount(DefaultTileConfig) == 28 == LoadedTileImages
  {
  }
}
