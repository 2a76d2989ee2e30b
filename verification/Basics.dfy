/** Types shared by the modules. */
module Basics {
  datatype Option<+T> = None | Some(value: T)

  type Byte = x: int | 0 <= x < 256

  /** Nets are told apart by number. */
  type Net = nat

  /** The parts of the family; those named LFE5U have no SERDES. */
  datatype Part = LFE5U_12F | LFE5U_25F | LFE5U_45F | LFE5U_85F
    | LFE5UM_25F | LFE5UM_45F | LFE5UM_85F | LFE5UM5G_25F | LFE5UM5G_45F | LFE5UM5G_85F

  lemma Regroup<T>(a: seq<T>, b: seq<T>, c: seq<T>)
    ensures a + b + c == a + (b + c)
  {
  }

  /** Texts one after the other. */
  function Joined(pieces: seq<string>): string { if pieces == [] then "" else pieces[0] + Joined(pieces[1..]) }

  lemma JoinedStep(piece: string, pieces: seq<string>)
    ensures Joined([piece] + pieces) == piece + Joined(pieces)
  {
    assert ([piece] + pieces)[1..] == pieces;
  }
}
