/** Direction tokens of the line and grid commands: an axis and a sign. */
module Directions {

  import opened Wrappers

  datatype Axis = X | Z

  /** A unit step along one horizontal axis: `sign` is 1 or -1. */
  datatype Direction = Direction(axis: Axis, sign: int)

  /** The four accepted tokens and what they stand for. */
  const ValidDirections: map<string, Direction> :=
    map["+x" := Direction(X, 1), "-x" := Direction(X, -1),
        "+z" := Direction(Z, 1), "-z" := Direction(Z, -1)]

  predicate IsUnit(d: Direction) { d.sign == 1 || d.sign == -1 }

  /** Dictionary lookup with `(None, None)` for an unknown token. */
  function ParseDirection(token: string): (r: Option<Direction>)
    ensures r.Some? <==> token == "+x" || token == "-x" || token == "+z" || token == "-z"
    ensures r.Some? ==> IsUnit(r.value)
    ensures r.Some? ==> (r.value.axis == X <==> token[1] == 'x')
    ensures r.Some? ==> (r.value.sign == 1 <==> token[0] == '+')
  {
    if token in ValidDirections then Some(ValidDirections[token]) else None
  }

  /** The token that names a unit direction. */
  function Token(d: Direction): (t: string)
    requires IsUnit(d)
    ensures |t| == 2
  {
    (if d.sign == 1 then "+" else "-") + (if d.axis == X then "x" else "z")
  }

  /** Every unit direction is named by exactly one token: parsing its token gives it back,
      and a token that parses is the token of what it parses to. */
  lemma ParseDirectionRoundTrip(d: Direction, token: string)
    requires IsUnit(d)
    ensures ParseDirection(Token(d)) == Some(d)
    ensures ParseDirection(token) == Some(d) ==> token == Token(d)
  {
    if d.axis == X && d.sign == 1 {
      assert Token(d) == "+x";
    } else if d.axis == X {
      assert Token(d) == "-x";
    } else if d.sign == 1 {
      assert Token(d) == "+z";
    } else {
      assert Token(d) == "-z";
    }
  }
}
