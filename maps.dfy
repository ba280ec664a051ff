/** The two demo maps: the plain 0/1 maze of the line-only demo and the coloured maze of the
    3D demo, with the facts about them that the rest of the model relies on. */
module Maps {
  import opened Geometry
  import opened WorldMap

  /** Map of the line-only demo: 0 is empty, 1 is wall. */
  const BASIC_MAP: Grid := [
    [1, 1, 1, 1, 1, 1, 1, 1, 1, 1, 1, 1, 1, 1, 1],
    [1, 0, 0, 0, 0, 0, 0, 0, 0, 0, 0, 0, 1, 0, 1],
    [1, 0, 0, 0, 0, 1, 0, 0, 0, 0, 0, 0, 1, 0, 1],
    [1, 0, 0, 0, 0, 0, 0, 0, 0, 1, 1, 0, 1, 0, 1],
    [1, 0, 0, 1, 0, 0, 0, 0, 0, 0, 1, 0, 1, 0, 1],
    [1, 0, 0, 0, 0, 0, 0, 0, 1, 1, 1, 1, 1, 0, 1],
    [1, 0, 1, 0, 1, 0, 0, 0, 0, 0, 0, 0, 0, 0, 1],
    [1, 0, 1, 0, 0, 0, 0, 0, 0, 0, 0, 0, 0, 0, 1],
    [1, 0, 1, 1, 1, 1, 0, 0, 0, 1, 1, 1, 1, 0, 1],
    [1, 0, 1, 0, 0, 0, 0, 0, 0, 0, 0, 0, 0, 0, 1],
    [1, 1, 1, 1, 1, 1, 1, 1, 1, 1, 1, 1, 1, 1, 1]
  ]

  /** Map of the 3D demo: codes 1..4 are four wall materials. */
  const COLOURED_MAP: Grid := [
    [1, 1, 1, 1, 1, 1, 1, 1, 1, 1, 1, 1, 1, 1, 1],
    [1, 0, 0, 0, 0, 3, 0, 0, 0, 0, 0, 0, 3, 0, 1],
    [1, 0, 0, 0, 0, 2, 0, 0, 0, 4, 0, 0, 3, 0, 1],
    [1, 0, 0, 0, 0, 0, 0, 0, 0, 0, 0, 3, 3, 0, 1],
    [1, 0, 0, 4, 0, 0, 0, 2, 0, 0, 0, 0, 0, 0, 1],
    [1, 0, 0, 0, 0, 0, 0, 0, 0, 0, 4, 4, 0, 0, 1],
    [1, 0, 3, 0, 2, 0, 0, 0, 0, 0, 0, 4, 3, 0, 1],
    [1, 3, 3, 0, 0, 0, 0, 0, 0, 0, 4, 4, 0, 0, 1],
    [1, 0, 3, 0, 0, 4, 0, 2, 0, 0, 0, 0, 0, 0, 1],
    [1, 0, 0, 0, 0, 0, 0, 0, 0, 0, 0, 3, 0, 0, 1],
    [1, 1, 1, 1, 1, 1, 1, 1, 1, 1, 1, 1, 1, 1, 1]
  ]

  /** The line-only demo's map is an 11 x 15 grid of 0/1 codes with a solid border. */
  lemma BasicMapShape()
    ensures WellFormed(BASIC_MAP) && SolidBorder(BASIC_MAP) && CodesWithin(BASIC_MAP, 0, 1)
  {
  }

  /** The 3D demo's map is an 11 x 15 grid of material codes 0..4 with a solid border. */
  lemma ColouredMapShape()
    ensures WellFormed(COLOURED_MAP) && SolidBorder(COLOURED_MAP) && CodesWithin(COLOURED_MAP, 0, 4)
  {
  }

  /** The player's starting point, the centre of the window, is free on both maps. */
  lemma StartIsFree()
    ensures !HasWallAt(BASIC_MAP, WINDOW_WIDTH / 2.0, WINDOW_HEIGHT / 2.0)
    ensures !HasWallAt(COLOURED_MAP, WINDOW_WIDTH / 2.0, WINDOW_HEIGHT / 2.0)
  {
    BasicMapShape();
    ColouredMapShape();
    assert CellIndex(WINDOW_WIDTH / 2.0) == 7 && CellIndex(WINDOW_HEIGHT / 2.0) == 5;
  }
}
