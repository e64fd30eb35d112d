/**
 * Animated circles ("packets") that travel from a transmitter to a house.
 * Positions and the interpolation along the path are not modelled; what is kept
 * is what the simulation reads and writes: the cycle, the phase offset, the
 * house a circle is aimed at, and whether it is active.
 */
module Packets {

  /** A circle's destination when it is not tied to any house (a trunk circle). */
  const NoHouse: int := -1

  datatype Circle = Circle(pathDuration: real, delayOffset: real, targetHouseIndex: int, isActive: bool)

  /** Cycle length of an overload circle, in seconds. */
  const OverloadPathDuration: real := 1.0
  /** Phase stagger between the two overload circles, in seconds. */
  const OverloadStagger: real := 0.5

  /** The i-th overload circle spawned for house h (i is 0 or 1). */
  function OverloadCircle(h: int, i: nat): Circle {
    Circle(OverloadPathDuration, i as real * OverloadStagger, h, true)
  }

  /** The two overload circles spawned for house h, in spawn order. */
  function OverloadPair(h: int): seq<Circle> {
    [OverloadCircle(h, 0), OverloadCircle(h, 1)]
  }

  /** Number of circles in `cs` aimed at house h. */
  function CountFor(cs: seq<Circle>, h: int): nat {
    if |cs| == 0 then 0
    else CountFor(cs[..|cs| - 1], h) + (if cs[|cs| - 1].targetHouseIndex == h then 1 else 0)
  }

  /** `cs` with every circle aimed at house h removed, the others kept in order. */
  function WithoutTarget(cs: seq<Circle>, h: int): (r: seq<Circle>)
    ensures |r| <= |cs|
    ensures forall c :: c in r ==> c in cs && c.targetHouseIndex != h
    ensures forall c :: c in cs && c.targetHouseIndex != h ==> c in r
  {
    if |cs| == 0 then []
    else
      var kept := WithoutTarget(cs[..|cs| - 1], h);
      var last := cs[|cs| - 1];
      assert cs == cs[..|cs| - 1] + [last];
      if last.targetHouseIndex == h then kept else kept + [last]
  }

  /** `a` is `b` with some elements left out and the rest in their original order. */
  ghost predicate IsSubsequence(a: seq<Circle>, b: seq<Circle>)
    decreases |b|
  {
    if |a| == 0 then true
    else if |b| == 0 then false
    else if a[|a| - 1] == b[|b| - 1] then IsSubsequence(a[..|a| - 1], b[..|b| - 1])
    else IsSubsequence(a, b[..|b| - 1])
  }

  lemma {:induction false} CountForAppend(a: seq<Circle>, b: seq<Circle>, h: int)
    ensures CountFor(a + b, h) == CountFor(a, h) + CountFor(b, h)
    decreases |b|
  {
    if |b| == 0 {
      assert a + b == a;
    } else {
      assert (a + b)[..|a + b| - 1] == a + b[..|b| - 1];
      CountForAppend(a, b[..|b| - 1], h);
    }
  }

  /** Spawning the pair for h adds two circles for h and none for any other house. */
  lemma CountForOverloadPair(cs: seq<Circle>, h: int, k: int)
    ensures CountFor(cs + OverloadPair(h), k) == CountFor(cs, k) + (if k == h then 2 else 0)
  {
    var pair := OverloadPair(h);
    CountForAppend(cs, pair, k);
    assert pair[..|pair| - 1] == [OverloadCircle(h, 0)];
    assert [OverloadCircle(h, 0)][..0] == [];
    assert CountFor([OverloadCircle(h, 0)], k) == if k == h then 1 else 0;
  }

  /** After filtering for h, no circle is aimed at h and every other house keeps its count. */
  lemma {:induction false} CountForWithoutTarget(cs: seq<Circle>, h: int, k: int)
    ensures CountFor(WithoutTarget(cs, h), k) == if k == h then 0 else CountFor(cs, k)
    decreases |cs|
  {
    if |cs| > 0 {
      var init := cs[..|cs| - 1];
      var last := cs[|cs| - 1];
      CountForWithoutTarget(init, h, k);
      if last.targetHouseIndex != h {
        CountForAppend(WithoutTarget(init, h), [last], k);
        assert [last][..0] == [];
      }
    }
  }

  /** Filtering distributes over concatenation: the relative order of the kept circles is that of the input. */
  lemma {:induction false} WithoutTargetAppend(a: seq<Circle>, b: seq<Circle>, h: int)
    ensures WithoutTarget(a + b, h) == WithoutTarget(a, h) + WithoutTarget(b, h)
    decreases |b|
  {
    if |b| == 0 {
      assert a + b == a;
    } else {
      assert (a + b)[..|a + b| - 1] == a + b[..|b| - 1];
      WithoutTargetAppend(a, b[..|b| - 1], h);
    }
  }

  /** The filtered collection is a subsequence of the original one. */
  lemma {:induction false} WithoutTargetIsSubsequence(cs: seq<Circle>, h: int)
    ensures IsSubsequence(WithoutTarget(cs, h), cs)
    decreases |cs|
  {
    if |cs| > 0 {
      var init := cs[..|cs| - 1];
      var last := cs[|cs| - 1];
      WithoutTargetIsSubsequence(init, h);
      var kept := WithoutTarget(init, h);
      if last.targetHouseIndex == h {
        if |kept| > 0 {
          assert kept[|kept| - 1] in kept;
        }
        SubsequenceExtend(kept, init, last);
      } else {
        assert (kept + [last])[..|kept|] == kept;
      }
    }
  }

  /** A subsequence of `b` is also a subsequence of `b` with one more element at the end. */
  lemma {:induction false} SubsequenceExtend(a: seq<Circle>, b: seq<Circle>, x: Circle)
    requires IsSubsequence(a, b)
    ensures IsSubsequence(a, b + [x])
    decreases |b|, 1
  {
    if |a| > 0 {
      assert (b + [x])[..|b|] == b;
      if a[|a| - 1] == x {
        // drop the last of a and match it against x
        SubsequenceDropLast(a, b);
      }
    }
  }

  /** Dropping the last element of a subsequence keeps it a subsequence. */
  lemma {:induction false} SubsequenceDropLast(a: seq<Circle>, b: seq<Circle>)
    requires |a| > 0 && IsSubsequence(a, b)
    ensures IsSubsequence(a[..|a| - 1], b)
    decreases |b|, 0
  {
    var a' := a[..|a| - 1];
    if |a'| > 0 && |b| > 0 {
      if a[|a| - 1] == b[|b| - 1] {
        SubsequenceExtend(a', b[..|b| - 1], b[|b| - 1]);
        assert b[..|b| - 1] + [b[|b| - 1]] == b;
      } else {
        SubsequenceDropLast(a, b[..|b| - 1]);
        SubsequenceExtend(a', b[..|b| - 1], b[|b| - 1]);
        assert b[..|b| - 1] + [b[|b| - 1]] == b;
      }
    }
  }

  /** A collection with nothing aimed at h is left exactly as it is. */
  lemma {:induction false} WithoutTargetNoop(cs: seq<Circle>, h: int)
    requires CountFor(cs, h) == 0
    ensures WithoutTarget(cs, h) == cs
    decreases |cs|
  {
    if |cs| > 0 {
      WithoutTargetNoop(cs[..|cs| - 1], h);
      assert cs == cs[..|cs| - 1] + [cs[|cs| - 1]];
    }
  }

  /** Filtering twice for the same house is the same as filtering once. */
  lemma WithoutTargetIdempotent(cs: seq<Circle>, h: int)
    ensures WithoutTarget(WithoutTarget(cs, h), h) == WithoutTarget(cs, h)
  {
    CountForWithoutTarget(cs, h, h);
    WithoutTargetNoop(WithoutTarget(cs, h), h);
  }

  /** Filters for two houses can be applied in either order. */
  lemma {:induction false} WithoutTargetCommutes(cs: seq<Circle>, h: int, k: int)
    ensures WithoutTarget(WithoutTarget(cs, h), k) == WithoutTarget(WithoutTarget(cs, k), h)
    decreases |cs|
  {
    if |cs| > 0 {
      var init := cs[..|cs| - 1];
      var last := cs[|cs| - 1];
      WithoutTargetCommutes(init, h, k);
      if last.targetHouseIndex != h {
        WithoutTargetAppend(WithoutTarget(init, h), [last], k);
      }
      if last.targetHouseIndex != k {
        WithoutTargetAppend(WithoutTarget(init, k), [last], h);
      }
    }
  }
}
