/** Values shared by every component of the strategy: optional collaborator
    answers, trade direction, and the last row of a bar window. */
module Market {

  /** An answer from a collaborator that may be missing (`None` in the source). */
  datatype Option<T> = None | Some(value: T)

  datatype Direction = Long | Short

  /** The direction on the other side of the market. */
  function Opposite(d: Direction): (r: Direction)
    ensures r != d
  {
    if d == Long then Short else Long
  }

  /** The most recent element of a non-empty window (`tail(1)[0]`). */
  function Last<T>(s: seq<T>): T
    requires |s| > 0
  {
    s[|s| - 1]
  }

  /** Python's `abs` on a float. */
  function Abs(x: real): (r: real)
    ensures r >= 0.0 && (r == x || r == -x)
  {
    if x >= 0.0 then x else -x
  }

  /** Python truthiness of an optional number, as in the source's `not price`
      tests: a missing value and a zero value are both treated as absent. */
  predicate Truthy(p: Option<real>)
  {
    p.Some? && p.value != 0.0
  }

  /** A column of values as seen from the other side of the market. */
  function Negated(xs: seq<real>): (r: seq<real>)
    ensures |r| == |xs|
    ensures forall i :: 0 <= i < |xs| ==> r[i] == -xs[i]
  {
    if xs == [] then [] else [-xs[0]] + Negated(xs[1..])
  }

  /** A price as seen from the other side of the market (all prices negated). */
  function MirrorPrice(p: Option<real>): (r: Option<real>)
    ensures Truthy(r) <==> Truthy(p)
    ensures r.Some? <==> p.Some?
    ensures p.Some? ==> r.value == -p.value
  {
    if p.Some? then Some(-p.value) else None
  }
}
