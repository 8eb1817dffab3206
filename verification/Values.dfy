/** Reported values and how numbers are read from them. */
module Values {
  import opened DocumentSplitter
  import opened Options

  /** A reported value; `Other` stands for everything that is neither a finite number nor text. */
  datatype Value = Number(n: real) | Text(s: string) | Other

  /** How text is read as a finite number, if it is one. */
  type NumberReader = string -> Option<real>

  function TrimLeft(s: string): (t: string)
    ensures |t| <= |s|
  {
    if s != "" && IsSpace(s[0]) then TrimLeft(s[1..]) else s
  }

  function TrimRight(s: string): string {
    if s != "" && IsSpace(s[|s| - 1]) then TrimRight(s[..|s| - 1]) else s
  }

  function Trim(s: string): string { TrimRight(TrimLeft(s)) }

  predicate IsWhole(n: real) { n == n.Floor as real }

  /** A finite number in a range, optionally whole. Truth values are no numbers. */
  function ParseNumber(read: NumberReader, value: Value, minimum: Option<real>, maximum: Option<real>,
      whole: bool): (r: Option<real>)
    ensures r.Some? ==>
              && (minimum.Some? ==> minimum.value <= r.value)
              && (maximum.Some? ==> r.value <= maximum.value)
              && (whole ==> IsWhole(r.value))
  {
    var number := match value case Number(n) => Some(n) case Text(s) => read(s) case Other => None;
    match number
    case None => None
    case Some(n) =>
      if (minimum.Some? && n < minimum.value) || (maximum.Some? && n > maximum.value) || (whole && !IsWhole(n))
      then None
      else Some(n)
  }

  /** A channel number: whole and not negative. */
  function ParseChannel(read: NumberReader, value: Value): Option<nat> {
    match ParseNumber(read, value, Some(0.0), None, true)
    case Some(n) => assert n.Floor as real == n; Some(n.Floor)
    case None => None
  }
}
