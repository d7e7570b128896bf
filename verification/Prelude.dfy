/** Small shared vocabulary: optional values, ordering and rounding, ends of sequences, regimes. */
module Prelude {

  datatype Option<+T> = None | Some(value: T)

  // How far algorithmic trading dominates the market.
  datatype Regime = Normal | ModerateQuant | HighQuant

  function RMax(a: real, b: real): real {
    if a >= b then a else b
  }

  function RMin(a: real, b: real): real {
    if a <= b then a else b
  }

  function RAbs(a: real): real {
    if a >= 0.0 then a else -a
  }

  // Python's round: to the nearest integer, ties to the even one.
  function Round(x: real): (n: int)
    ensures RAbs(n as real - x) <= 0.5
    ensures RAbs(n as real - x) == 0.5 ==> n % 2 == 0
  {
    var f := x.Floor;
    var part := x - f as real;
    if part < 0.5 then f
    else if part > 0.5 then f + 1
    else if f % 2 == 0 then f
    else f + 1
  }

  function IMin(a: int, b: int): int {
    if a <= b then a else b
  }

  function IMax(a: int, b: int): int {
    if a >= b then a else b
  }

  // The last n elements, or all of them.
  function Tail<T>(s: seq<T>, n: nat): seq<T> {
    if |s| <= n then s else s[|s| - n..]
  }

  function Last<T>(s: seq<T>): T
    requires |s| > 0
  {
    s[|s| - 1]
  }

  function Front<T>(s: seq<T>): seq<T>
    requires |s| > 0
  {
    s[..|s| - 1]
  }
}
