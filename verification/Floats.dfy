/** What the CPU limits need of 64-bit floating point and of strconv: rounding, printing and parsing
    are parameters, and IEEE says what is relied on of them. */
module Floats {
  import opened Go
  import opened Text

  datatype Floats = Floats(
    round: real -> real,             // the nearest double
    parse: string -> Option<real>,   // strconv.ParseFloat with 64 bits
    format: real -> string)          // strconv.FormatFloat with 'f' and the shortest precision

  function NatPow2(n: nat): (p: real)
    ensures p > 0.0
  {
    if n == 0 then 1.0 else 2.0 * NatPow2(n - 1)
  }

  function Pow2(e: int): (p: real)
    ensures p > 0.0
  {
    if e >= 0 then NatPow2(e) else 1.0 / NatPow2(-e)
  }

  /** x lies between 2^e and 2^(e+1). */
  ghost predicate Binade(e: int, x: real) {
    Pow2(e) <= x < 2.0 * Pow2(e)
  }

  function Units(k: int, u: int): real {
    k as real * Pow2(u)
  }

  /** x is a whole number of units of 2^u. */
  ghost predicate Multiple(x: real, u: int) {
    exists k: int :: x == Units(k, u)
  }

  /** The point halfway between two neighbours of a grid. */
  function HalfWay(k: int, u: int): real {
    Units(2 * k + 1, u - 1)
  }

  /** Rounding is to the nearest of the numbers with 53 significant bits, and to the even one of two
      that are equally near; printing and parsing lose nothing; whole numbers of 53 bits are parsed
      exactly, and the empty text is no number. */
  ghost predicate IEEE(f: Floats) {
    && (forall e: int, x: real :: Binade(e, x) ==>
          && Multiple(f.round(x), e - 52)
          && 2.0 * (f.round(x) - x) <= Pow2(e - 52)
          && 2.0 * (x - f.round(x)) <= Pow2(e - 52))
    && (forall k: int, u: int :: Binade(u + 52, HalfWay(k, u)) ==>
          f.round(HalfWay(k, u)) == Units(if k % 2 == 0 then k else k + 1, u))
    && (forall x: real :: f.round(x) == x ==> f.parse(f.format(x)) == Some(x))
    && f.parse("") == None
    && (forall n: nat :: n < 0x20_0000_0000_0000 ==> f.parse(FormatInt(n)) == Some(n as real))
  }

  /** int64(x) for a float x, as on amd64: values out of range become the smallest integer. */
  function Truncate(x: real): int64 {
    var n := if x >= 0.0 then x.Floor else -((-x).Floor);
    if -TWO_63 <= n < TWO_63 then n else -TWO_63
  }

  const NANO := 1_000_000_000

  /** The CPU limit of a spec in billionths of a core; 0 when the text is no number. */
  function ParseCPU(f: Floats, text: string): (n: int64)
    ensures f.parse(text).None? ==> n == 0
  {
    var x := f.parse(text);
    if x.None? then 0 else Truncate(f.round(x.value * NANO as real))
  }

  function Cores(f: Floats, nanoCPUs: int64): real {
    f.round(f.round(nanoCPUs as real) / NANO as real)
  }

  /** formatNanoCPUs. */
  function FormatCPU(f: Floats, nanoCPUs: int64): string {
    var cores := Cores(f, nanoCPUs);
    if cores == cores.Floor as real then FormatInt(Truncate(cores)) else f.format(cores)
  }
}
