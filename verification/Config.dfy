/** The configuration of a chip as text names it (ecp5/config.h). */
module Config {
  datatype ConfigArc = ConfigArc(sink: string, source: string)

  datatype ConfigWord = ConfigWord(name: string, value: seq<bool>)

  datatype ConfigEnum = ConfigEnum(name: string, value: string)

  datatype ConfigUnknown = ConfigUnknown(frame: int, bit: int)

  datatype TileConfig = TileConfig(carcs: seq<ConfigArc>, cwords: seq<ConfigWord>, cenums: seq<ConfigEnum>,
                                   cunknowns: seq<ConfigUnknown>)
  {
    predicate Empty() { carcs == [] && cwords == [] && cenums == [] && cunknowns == [] }

    /** The items of this tile followed by those of another. */
    function Join(other: TileConfig): TileConfig {
      TileConfig(carcs + other.carcs, cwords + other.cwords, cenums + other.cenums, cunknowns + other.cunknowns)
    }
  }

  const EMPTY_TILE := TileConfig([], [], [], [])

  datatype TileGroup = TileGroup(tiles: seq<string>, config: TileConfig)

  /** One line of a tile. */
  datatype Item = Arc(a: ConfigArc) | Word(w: ConfigWord) | Enum(e: ConfigEnum) | Unknown(u: ConfigUnknown)

  function Arcs(v: seq<ConfigArc>): seq<Item> { seq(|v|, i requires 0 <= i < |v| => Arc(v[i])) }

  function Words(v: seq<ConfigWord>): seq<Item> { seq(|v|, i requires 0 <= i < |v| => Word(v[i])) }

  function Enums(v: seq<ConfigEnum>): seq<Item> { seq(|v|, i requires 0 <= i < |v| => Enum(v[i])) }

  function Unknowns(v: seq<ConfigUnknown>): seq<Item> { seq(|v|, i requires 0 <= i < |v| => Unknown(v[i])) }

  /** The lines of a tile in the order they are written. */
  function ItemSeq(tc: TileConfig): seq<Item> {
    Arcs(tc.carcs) + Words(tc.cwords) + Enums(tc.cenums) + Unknowns(tc.cunknowns)
  }
}
