/** Pitch-class sets: the 12-bit masks of the analyser (bit `s` set when
    pitch class `s` sounds) seen as sets of bit positions in [0, 12), so that
    `|=` is union, `&` with a comparison is the subset test, `& ~` is set
    difference and `popcount` is cardinality. */
module PitchClassSets {

  /** Every element is a valid bit position of the 12-bit mask. */
  predicate IsPcs(s: set<int>) {
    forall x | x in s :: 0 <= x < 12
  }

  /** `(pc - root + 12) % 12`: a pitch class measured upwards from a root.
      The left operand is never negative for pitch classes, so C++'s `%`
      and Dafny's agree. */
  function RelPc(pc: int, root: int): (r: int)
    requires 0 <= pc < 12 && 0 <= root < 12
    ensures 0 <= r < 12
    ensures r == 0 <==> pc == root
    ensures (root + r) % 12 == pc
  {
    (pc - root + 12) % 12
  }

  /** Measuring from a fixed root is one-to-one. */
  lemma {:induction false} RelPcInjective(a: int, b: int, root: int)
    requires 0 <= a < 12 && 0 <= b < 12 && 0 <= root < 12
    requires RelPc(a, root) == RelPc(b, root)
    ensures a == b
  {
  }

  /** The set measured from `root`: every element `x` becomes `RelPc(x, root)`. */
  function Rotate(s: set<int>, root: int): (r: set<int>)
    requires IsPcs(s) && 0 <= root < 12
    ensures IsPcs(r)
  {
    set x | x in s :: RelPc(x, root)
  }

  /** The elements of `s` below `k`. */
  function Below(s: set<int>, k: int): set<int> {
    set x | x in s && x < k
  }

  /** Rotation keeps the number of pitch classes, and the rotated set holds
      bit 0 exactly when the root itself is in the set. */
  lemma {:induction false} RotateFacts(s: set<int>, root: int)
    requires IsPcs(s) && 0 <= root < 12
    ensures |Rotate(s, root)| == |s|
    ensures 0 in Rotate(s, root) <==> root in s
  {
    RotateBelow(s, root, 12);
    assert Below(s, 12) == s;
  }

  lemma {:induction false} RotateBelow(s: set<int>, root: int, k: int)
    requires IsPcs(s) && 0 <= root < 12 && 0 <= k <= 12
    ensures IsPcs(Below(s, k))
    ensures |Rotate(Below(s, k), root)| == |Below(s, k)|
  {
    if k == 0 {
      assert Below(s, k) == {};
      assert Rotate(Below(s, k), root) == {};
    } else {
      RotateBelow(s, root, k - 1);
      var prev := Below(s, k - 1);
      var rp := Rotate(prev, root);
      if k - 1 in s {
        assert Below(s, k) == prev + {k - 1};
        RotateAddTop(prev, root, k - 1);
      } else {
        assert Below(s, k) == prev;
      }
    }
  }

  /** Adding an element above all others adds one rotated element. */
  lemma {:induction false} RotateAddTop(s: set<int>, root: int, x: int)
    requires IsPcs(s) && 0 <= root < 12 && 0 <= x < 12
    requires forall y | y in s :: y < x
    ensures |Rotate(s + {x}, root)| == |Rotate(s, root)| + 1
  {
    assert Rotate(s + {x}, root) == Rotate(s, root) + {RelPc(x, root)};
    NewRotatedElement(s, root, x);
  }

  /** An element above every element of `s` rotates to a new element. */
  lemma {:induction false} NewRotatedElement(s: set<int>, root: int, x: int)
    requires IsPcs(s) && 0 <= root < 12 && 0 <= x < 12
    requires forall y | y in s :: y < x
    ensures RelPc(x, root) !in Rotate(s, root)
  {
    forall y | y in s
      ensures RelPc(y, root) != RelPc(x, root)
    {
      if RelPc(y, root) == RelPc(x, root) {
        RelPcInjective(y, x, root);
      }
    }
  }
}
