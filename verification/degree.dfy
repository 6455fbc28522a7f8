/** Scale degrees: a degree number (1-based; 0 means "no degree") and a
    chromatic alteration (-1 flat, +1 sharp). */
module Degrees {

  datatype Degree = Degree(num: int, alter: int)

  /** The default degree: no degree, unaltered. */
  const NoDegree := Degree(0, 0)

  /** `degree(n)`: an unaltered degree. */
  function Plain(n: int): (r: Degree)
    ensures r.num == n && r.alter == 0
    ensures IsSet(r) <==> n >= 1
  {
    Degree(n, 0)
  }

  /** `operator bool`: the degree names an actual scale position. */
  predicate IsSet(d: Degree) {
    d.num >= 1
  }

  /** Accidental written before a Roman numeral. */
  function Prefix(d: Degree): (r: string)
    ensures d.alter == -1 <==> r == "b"
    ensures d.alter == 1 <==> r == "#"
    ensures d.alter != -1 && d.alter != 1 <==> r == ""
  {
    if d.alter == -1 then "b" else if d.alter == 1 then "#" else ""
  }

  /** `b(d)`: the flattened degree. */
  function Flat(n: int): (r: Degree)
    ensures r.num == n && Prefix(r) == "b"
  {
    Degree(n, -1)
  }

  /** `s(d)`: the sharpened degree. */
  function Sharp(n: int): (r: Degree)
    ensures r.num == n && Prefix(r) == "#"
  {
    Degree(n, 1)
  }

  /** The default degree is unset; equality is fieldwise, so b(7), s(7) and 7
      are three different degrees. */
  lemma {:induction false} DegreeFacts(n: int)
    ensures !IsSet(NoDegree) && NoDegree.num == 0 && NoDegree.alter == 0
    ensures Flat(n) != Sharp(n) && Flat(n) != Plain(n) && Sharp(n) != Plain(n)
    ensures Prefix(Plain(n)) == ""
  {
  }
}
