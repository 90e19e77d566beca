/** The five level configurations, reduced to what the game logic reads:
    the level number, the room's name and how the key is revealed. */
module LevelCatalog {

  /** The animation that uncovers the key. */
  datatype KeyRevealType = Table | Drawer | Painting | Floor | Wall

  datatype LevelConfig = LevelConfig(level: int, name: string, keyRevealType: KeyRevealType)

  const LevelConfigs: seq<LevelConfig> := [
    LevelConfig(1, "The Awakening", Table),
    LevelConfig(2, "The Depths", Drawer),
    LevelConfig(3, "The Void", Painting),
    LevelConfig(4, "The Furnace", Floor),
    LevelConfig(5, "The Final Gate", Wall)
  ]

  /** There is one configuration per level, and entry `i` configures level `i + 1`. */
  lemma ConfigsIndexedByLevel()
    ensures |LevelConfigs| == 5
    ensures forall i :: 0 <= i < |LevelConfigs| ==> LevelConfigs[i].level == i + 1
  {
  }
}
