/**
 * The pattern table of heuristic.py (`patternSetting`).
 *
 * For each of the four base patterns and each r in 1..3 the table maps the
 * sum of every r-element combination of the pattern's bits to the score of
 * r stones. These are exactly the non-empty proper sub-patterns of a base
 * pattern (`IsKey`), each mapped to the score of its number of bits
 * (`Weight`): `Scored` states it, and the lemmas below prove that the
 * combinations the table is written from are these keys.
 */
module Patterns {
  import opened Bits
  import opened Windows

  /** `itertools.combinations(p, r)`: the r-element subsequences of p, in lexicographic order of positions. */
  function Choose<T>(p: seq<T>, r: nat): seq<seq<T>>
    decreases |p|
  {
    if r == 0 then [[]]
    else if |p| < r then []
    else Prefixed(p[0], Choose(p[1..], r - 1)) + Choose(p[1..], r)
  }

  /** Every sequence of qs with x put in front. */
  function Prefixed<T>(x: T, qs: seq<seq<T>>): (rs: seq<seq<T>>)
    ensures |rs| == |qs| && forall i :: 0 <= i < |qs| ==> rs[i] == [x] + qs[i]
  {
    if |qs| == 0 then [] else [[x] + qs[0]] + Prefixed(x, qs[1..])
  }

  /** Python's `sum`: the elements added from the left to 0. */
  function Sum(q: seq<bv64>): bv64
  {
    if |q| == 0 then 0 else Add(Sum(q[..|q| - 1]), q[|q| - 1])
  }

  /** The combinations of one, two and three elements, written out. */
  lemma ChooseFromOne<T>(d: T)
    ensures Choose([d], 1) == [[d]] && Choose([d], 2) == [] && Choose([d], 3) == []
  {
    assert [d][1..] == [];
    var one := Prefixed(d, Choose([], 0));
    assert Choose<T>([], 0) == [[]];
    assert |one| == 1 && one[0] == [d] + [] == [d];
    assert Choose([d], 1) == one + Choose([], 1);
  }

  lemma ChooseFromTwo<T>(c: T, d: T)
    ensures Choose([c, d], 1) == [[c], [d]] && Choose([c, d], 2) == [[c, d]] && Choose([c, d], 3) == []
  {
    assert [c, d][1..] == [d];
    ChooseFromOne(d);
    var one := Prefixed(c, Choose([d], 0));
    assert |one| == 1 && one[0] == [c] + [] == [c];
    assert Choose([c, d], 1) == one + [[d]];
    var two := Prefixed(c, Choose([d], 1));
    assert |two| == 1 && two[0] == [c] + [d] == [c, d];
    assert Choose([c, d], 2) == two + [];
  }

  lemma ChooseFromThree<T>(b: T, c: T, d: T)
    ensures Choose([b, c, d], 1) == [[b], [c], [d]]
    ensures Choose([b, c, d], 2) == [[b, c], [b, d], [c, d]]
    ensures Choose([b, c, d], 3) == [[b, c, d]]
  {
    assert [b, c, d][1..] == [c, d];
    ChooseFromTwo(c, d);
    var one := Prefixed(b, Choose([c, d], 0));
    assert |one| == 1 && one[0] == [b] + [] == [b];
    assert Choose([b, c, d], 1) == one + [[c], [d]];
    var two := Prefixed(b, Choose([c, d], 1));
    assert |two| == 2 && two[0] == [b] + [c] == [b, c] && two[1] == [b] + [d] == [b, d];
    assert Choose([b, c, d], 2) == two + [[c, d]];
    var three := Prefixed(b, Choose([c, d], 2));
    assert |three| == 1 && three[0] == [b] + [c, d] == [b, c, d];
    assert Choose([b, c, d], 3) == three + [];
  }

  /** The combinations of four elements, one size at a time. */
  lemma ChooseOneOfFour<T>(a: T, b: T, c: T, d: T)
    ensures Choose([a, b, c, d], 1) == [[a], [b], [c], [d]]
  {
    assert [a, b, c, d][1..] == [b, c, d];
    ChooseFromThree(b, c, d);
    var one := Prefixed(a, Choose([b, c, d], 0));
    assert |one| == 1 && one[0] == [a] + [] == [a];
  }

  lemma ChooseTwoOfFour<T>(a: T, b: T, c: T, d: T)
    ensures Choose([a, b, c, d], 2) == [[a, b], [a, c], [a, d], [b, c], [b, d], [c, d]]
  {
    assert [a, b, c, d][1..] == [b, c, d];
    ChooseFromThree(b, c, d);
    var two := Prefixed(a, Choose([b, c, d], 1));
    assert |two| == 3 && two[0] == [a] + [b] == [a, b] && two[1] == [a] + [c] == [a, c] && two[2] == [a] + [d] == [a, d];
  }

  lemma ChooseThreeOfFour<T>(a: T, b: T, c: T, d: T)
    ensures Choose([a, b, c, d], 3) == [[a, b, c], [a, b, d], [a, c, d], [b, c, d]]
  {
    assert [a, b, c, d][1..] == [b, c, d];
    ChooseFromThree(b, c, d);
    var three := Prefixed(a, Choose([b, c, d], 2));
    assert |three| == 3 && three[0] == [a] + [b, c] == [a, b, c] && three[1] == [a] + [b, d] == [a, b, d];
    assert three[2] == [a] + [c, d] == [a, c, d];
  }

  /** The combinations of a four-element list, written out. */
  lemma ChooseFour<T>(p: seq<T>)
    requires |p| == 4
    ensures Choose(p, 1) == [[p[0]], [p[1]], [p[2]], [p[3]]]
    ensures Choose(p, 2) == [[p[0], p[1]], [p[0], p[2]], [p[0], p[3]], [p[1], p[2]], [p[1], p[3]], [p[2], p[3]]]
    ensures Choose(p, 3) == [[p[0], p[1], p[2]], [p[0], p[1], p[3]], [p[0], p[2], p[3]], [p[1], p[2], p[3]]]
  {
    assert p == [p[0], p[1], p[2], p[3]];
    ChooseOneOfFour(p[0], p[1], p[2], p[3]);
    ChooseTwoOfFour(p[0], p[1], p[2], p[3]);
    ChooseThreeOfFour(p[0], p[1], p[2], p[3]);
  }

  /** The sums of short sequences. */
  lemma SumShort(a: bv64, b: bv64, c: bv64)
    ensures Sum([a]) == Add(0, a)
    ensures Sum([a, b]) == Add(Add(0, a), b)
    ensures Sum([a, b, c]) == Add(Add(Add(0, a), b), c)
  {
    assert [a, b][..1] == [a];
    assert [a, b, c][..2] == [a, b];
  }

  /** The sum of four words. */
  lemma SumFour(a: bv64, b: bv64, c: bv64, d: bv64)
    ensures Sum([a, b, c, d]) == Add(Add(Add(Add(0, a), b), c), d)
  {
    assert [a, b, c, d][..3] == [a, b, c];
    SumShort(a, b, c);
  }


  /** A key of base pattern j: a non-empty proper part of its four bits. */
  predicate SubPattern(k: bv64, j: int)
    requires 0 <= j < 4
  {
    Subset(k, Mask(j)) && k != 0 && k != Mask(j)
  }

  /** The keys of the table: the non-empty proper parts of the base patterns. */
  predicate IsKey(k: bv64)
  {
    SubPattern(k, 0) || SubPattern(k, 1) || SubPattern(k, 2) || SubPattern(k, 3)
  }

  /** The first base pattern a key is part of. */
  function Home(k: bv64): (j: int)
    ensures 0 <= j < 4
  {
    if SubPattern(k, 0) then 0 else if SubPattern(k, 1) then 1 else if SubPattern(k, 2) then 2 else 3
  }

  /** The number of stones a key stands for: its bits in a base pattern it is part of. */
  function Weight(k: bv64): int
  {
    WeightIn(k, Home(k))
  }

  /** The number of 64-bit words: the table's keys are Python integers below it. */
  const WordRange: int := 0x1_0000_0000_0000_0000

  /** Word k is in the table m exactly when it is a key, and then with the score of its weight. */
  ghost predicate Entry(m: map<int, int>, s: seq<int>, k: bv64)
    requires |s| == 5
  {
    (k as int in m <==> IsKey(k)) && (k as int in m ==> m[k as int] == s[Weight(k)])
  }

  /** The table `patternSetting` fills from the scores s: every key, and only keys, each with the score of its weight. */
  ghost predicate Scored(m: map<int, int>, s: seq<int>)
  {
    |s| == 5 && (forall k :: Entry(m, s, k)) && (forall n :: n in m ==> 0 <= n < WordRange)
  }

  // -----------------------------------------------------------------------
  // The horizontal pattern

  lemma Comb010(j: int)
    requires j == 0
    ensures |Choose(Pattern(j), 1)| == 4 && Sum(Choose(Pattern(j), 1)[0]) == 0x1
    ensures IsKey(0x1) && Weight(0x1) == 1
  {
    var p := Pattern(j);
    assert p == [0x1, 0x80, 0x4000, 0x20_0000];
    ChooseFour(p);
    SumShort(p[0], p[0], p[0]);
  }

  lemma Comb011(j: int)
    requires j == 0
    ensures |Choose(Pattern(j), 1)| == 4 && Sum(Choose(Pattern(j), 1)[1]) == 0x80
    ensures IsKey(0x80) && Weight(0x80) == 1
  {
    var p := Pattern(j);
    assert p == [0x1, 0x80, 0x4000, 0x20_0000];
    ChooseFour(p);
    SumShort(p[1], p[0], p[0]);
  }

  lemma Comb012(j: int)
    requires j == 0
    ensures |Choose(Pattern(j), 1)| == 4 && Sum(Choose(Pattern(j), 1)[2]) == 0x4000
    ensures IsKey(0x4000) && Weight(0x4000) == 1
  {
    var p := Pattern(j);
    assert p == [0x1, 0x80, 0x4000, 0x20_0000];
    ChooseFour(p);
    SumShort(p[2], p[0], p[0]);
  }

  lemma Comb013(j: int)
    requires j == 0
    ensures |Choose(Pattern(j), 1)| == 4 && Sum(Choose(Pattern(j), 1)[3]) == 0x20_0000
    ensures IsKey(0x20_0000) && Weight(0x20_0000) == 1
  {
    var p := Pattern(j);
    assert p == [0x1, 0x80, 0x4000, 0x20_0000];
    ChooseFour(p);
    SumShort(p[3], p[0], p[0]);
  }

  /** Every 1-element combination of pattern 0 sums to a key of weight 1. */
  lemma Written01(j: int, n: int)
    requires j == 0 && 0 <= n < |Choose(Pattern(j), 1)|
    ensures IsKey(Sum(Choose(Pattern(j), 1)[n])) && Weight(Sum(Choose(Pattern(j), 1)[n])) == 1
  {
    if n == 0 {
      Comb010(j);
    } else if n == 1 {
      Comb011(j);
    } else if n == 2 {
      Comb012(j);
    } else {
      Comb013(j);
    }
  }

  lemma Comb020(j: int)
    requires j == 0
    ensures |Choose(Pattern(j), 2)| == 6 && Sum(Choose(Pattern(j), 2)[0]) == 0x81
    ensures IsKey(0x81) && Weight(0x81) == 2
  {
    var p := Pattern(j);
    assert p == [0x1, 0x80, 0x4000, 0x20_0000];
    ChooseFour(p);
    SumShort(p[0], p[1], p[0]);
  }

  lemma Comb021(j: int)
    requires j == 0
    ensures |Choose(Pattern(j), 2)| == 6 && Sum(Choose(Pattern(j), 2)[1]) == 0x4001
    ensures IsKey(0x4001) && Weight(0x4001) == 2
  {
    var p := Pattern(j);
    assert p == [0x1, 0x80, 0x4000, 0x20_0000];
    ChooseFour(p);
    SumShort(p[0], p[2], p[0]);
  }

  lemma Comb022(j: int)
    requires j == 0
    ensures |Choose(Pattern(j), 2)| == 6 && Sum(Choose(Pattern(j), 2)[2]) == 0x20_0001
    ensures IsKey(0x20_0001) && Weight(0x20_0001) == 2
  {
    var p := Pattern(j);
    assert p == [0x1, 0x80, 0x4000, 0x20_0000];
    ChooseFour(p);
    SumShort(p[0], p[3], p[0]);
  }

  lemma Comb023(j: int)
    requires j == 0
    ensures |Choose(Pattern(j), 2)| == 6 && Sum(Choose(Pattern(j), 2)[3]) == 0x4080
    ensures IsKey(0x4080) && Weight(0x4080) == 2
  {
    var p := Pattern(j);
    assert p == [0x1, 0x80, 0x4000, 0x20_0000];
    ChooseFour(p);
    SumShort(p[1], p[2], p[0]);
  }

  lemma Comb024(j: int)
    requires j == 0
    ensures |Choose(Pattern(j), 2)| == 6 && Sum(Choose(Pattern(j), 2)[4]) == 0x20_0080
    ensures IsKey(0x20_0080) && Weight(0x20_0080) == 2
  {
    var p := Pattern(j);
    assert p == [0x1, 0x80, 0x4000, 0x20_0000];
    ChooseFour(p);
    SumShort(p[1], p[3], p[0]);
  }

  lemma Comb025(j: int)
    requires j == 0
    ensures |Choose(Pattern(j), 2)| == 6 && Sum(Choose(Pattern(j), 2)[5]) == 0x20_4000
    ensures IsKey(0x20_4000) && Weight(0x20_4000) == 2
  {
    var p := Pattern(j);
    assert p == [0x1, 0x80, 0x4000, 0x20_0000];
    ChooseFour(p);
    SumShort(p[2], p[3], p[0]);
  }

  /** Every 2-element combination of pattern 0 sums to a key of weight 2. */
  lemma Written02(j: int, n: int)
    requires j == 0 && 0 <= n < |Choose(Pattern(j), 2)|
    ensures IsKey(Sum(Choose(Pattern(j), 2)[n])) && Weight(Sum(Choose(Pattern(j), 2)[n])) == 2
  {
    if n == 0 {
      Comb020(j);
    } else if n == 1 {
      Comb021(j);
    } else if n == 2 {
      Comb022(j);
    } else if n == 3 {
      Comb023(j);
    } else if n == 4 {
      Comb024(j);
    } else {
      Comb025(j);
    }
  }

  lemma Comb030(j: int)
    requires j == 0
    ensures |Choose(Pattern(j), 3)| == 4 && Sum(Choose(Pattern(j), 3)[0]) == 0x4081
    ensures IsKey(0x4081) && Weight(0x4081) == 3
  {
    var p := Pattern(j);
    assert p == [0x1, 0x80, 0x4000, 0x20_0000];
    ChooseFour(p);
    SumShort(p[0], p[1], p[2]);
  }

  lemma Comb031(j: int)
    requires j == 0
    ensures |Choose(Pattern(j), 3)| == 4 && Sum(Choose(Pattern(j), 3)[1]) == 0x20_0081
    ensures IsKey(0x20_0081) && Weight(0x20_0081) == 3
  {
    var p := Pattern(j);
    assert p == [0x1, 0x80, 0x4000, 0x20_0000];
    ChooseFour(p);
    SumShort(p[0], p[1], p[3]);
  }

  lemma Comb032(j: int)
    requires j == 0
    ensures |Choose(Pattern(j), 3)| == 4 && Sum(Choose(Pattern(j), 3)[2]) == 0x20_4001
    ensures IsKey(0x20_4001) && Weight(0x20_4001) == 3
  {
    var p := Pattern(j);
    assert p == [0x1, 0x80, 0x4000, 0x20_0000];
    ChooseFour(p);
    SumShort(p[0], p[2], p[3]);
  }

  lemma Comb033(j: int)
    requires j == 0
    ensures |Choose(Pattern(j), 3)| == 4 && Sum(Choose(Pattern(j), 3)[3]) == 0x20_4080
    ensures IsKey(0x20_4080) && Weight(0x20_4080) == 3
  {
    var p := Pattern(j);
    assert p == [0x1, 0x80, 0x4000, 0x20_0000];
    ChooseFour(p);
    SumShort(p[1], p[2], p[3]);
  }

  /** Every 3-element combination of pattern 0 sums to a key of weight 3. */
  lemma Written03(j: int, n: int)
    requires j == 0 && 0 <= n < |Choose(Pattern(j), 3)|
    ensures IsKey(Sum(Choose(Pattern(j), 3)[n])) && Weight(Sum(Choose(Pattern(j), 3)[n])) == 3
  {
    if n == 0 {
      Comb030(j);
    } else if n == 1 {
      Comb031(j);
    } else if n == 2 {
      Comb032(j);
    } else {
      Comb033(j);
    }
  }

  /** The parts of pattern 0. */
  lemma Parts0(k: bv64)
    requires SubPattern(k, 0)
    ensures k == 0x1
         || k == 0x80
         || k == 0x4000
         || k == 0x20_0000
         || k == 0x81
         || k == 0x4001
         || k == 0x20_0001
         || k == 0x4080
         || k == 0x20_0080
         || k == 0x20_4000
         || k == 0x4081
         || k == 0x20_0081
         || k == 0x20_4001
         || k == 0x20_4080
  {}

  /** Every key of pattern 0 is the sum of one of its combinations. */
  lemma Covered0(j: int, k: bv64)
    requires j == 0 && SubPattern(k, j)
    ensures |Choose(Pattern(j), 1)| == 4 && |Choose(Pattern(j), 2)| == 6 && |Choose(Pattern(j), 3)| == 4
    ensures k == Sum(Choose(Pattern(j), 1)[0])
         || k == Sum(Choose(Pattern(j), 1)[1])
         || k == Sum(Choose(Pattern(j), 1)[2])
         || k == Sum(Choose(Pattern(j), 1)[3])
         || k == Sum(Choose(Pattern(j), 2)[0])
         || k == Sum(Choose(Pattern(j), 2)[1])
         || k == Sum(Choose(Pattern(j), 2)[2])
         || k == Sum(Choose(Pattern(j), 2)[3])
         || k == Sum(Choose(Pattern(j), 2)[4])
         || k == Sum(Choose(Pattern(j), 2)[5])
         || k == Sum(Choose(Pattern(j), 3)[0])
         || k == Sum(Choose(Pattern(j), 3)[1])
         || k == Sum(Choose(Pattern(j), 3)[2])
         || k == Sum(Choose(Pattern(j), 3)[3])
  {
    Comb010(j);
    Comb011(j);
    Comb012(j);
    Comb013(j);
    Comb020(j);
    Comb021(j);
    Comb022(j);
    Comb023(j);
    Comb024(j);
    Comb025(j);
    Comb030(j);
    Comb031(j);
    Comb032(j);
    Comb033(j);
    Parts0(k);
  }

  /** Inside pattern 0, a word is a key exactly when it holds one to three of the pattern's bits, and that is its weight. */
  lemma Lookup0(j: int, k: bv64)
    requires j == 0 && Subset(k, Mask(j))
    ensures IsKey(k) <==> 1 <= WeightIn(k, j) <= 3
    ensures IsKey(k) ==> Weight(k) == WeightIn(k, j)
  {}

  /** Inside pattern 0, a filled table holds a word exactly when it has one to three of the pattern's bits, with the score of that many. */
  lemma Table0(m: map<int, int>, s: seq<int>, j: int, k: bv64)
    requires j == 0 && Subset(k, Mask(j)) && Scored(m, s)
    ensures k as int in m <==> 1 <= WeightIn(k, j) <= 3
    ensures k as int in m ==> m[k as int] == s[WeightIn(k, j)]
  {
    Lookup0(j, k);
    assert Entry(m, s, k);
  }

  // -----------------------------------------------------------------------
  // The vertical pattern

  lemma Comb110(j: int)
    requires j == 1
    ensures |Choose(Pattern(j), 1)| == 4 && Sum(Choose(Pattern(j), 1)[0]) == 0x1
    ensures IsKey(0x1) && Weight(0x1) == 1
  {
    var p := Pattern(j);
    assert p == [0x1, 0x2, 0x4, 0x8];
    ChooseFour(p);
    SumShort(p[0], p[0], p[0]);
  }

  lemma Comb111(j: int)
    requires j == 1
    ensures |Choose(Pattern(j), 1)| == 4 && Sum(Choose(Pattern(j), 1)[1]) == 0x2
    ensures IsKey(0x2) && Weight(0x2) == 1
  {
    var p := Pattern(j);
    assert p == [0x1, 0x2, 0x4, 0x8];
    ChooseFour(p);
    SumShort(p[1], p[0], p[0]);
  }

  lemma Comb112(j: int)
    requires j == 1
    ensures |Choose(Pattern(j), 1)| == 4 && Sum(Choose(Pattern(j), 1)[2]) == 0x4
    ensures IsKey(0x4) && Weight(0x4) == 1
  {
    var p := Pattern(j);
    assert p == [0x1, 0x2, 0x4, 0x8];
    ChooseFour(p);
    SumShort(p[2], p[0], p[0]);
  }

  lemma Comb113(j: int)
    requires j == 1
    ensures |Choose(Pattern(j), 1)| == 4 && Sum(Choose(Pattern(j), 1)[3]) == 0x8
    ensures IsKey(0x8) && Weight(0x8) == 1
  {
    var p := Pattern(j);
    assert p == [0x1, 0x2, 0x4, 0x8];
    ChooseFour(p);
    SumShort(p[3], p[0], p[0]);
  }

  /** Every 1-element combination of pattern 1 sums to a key of weight 1. */
  lemma Written11(j: int, n: int)
    requires j == 1 && 0 <= n < |Choose(Pattern(j), 1)|
    ensures IsKey(Sum(Choose(Pattern(j), 1)[n])) && Weight(Sum(Choose(Pattern(j), 1)[n])) == 1
  {
    if n == 0 {
      Comb110(j);
    } else if n == 1 {
      Comb111(j);
    } else if n == 2 {
      Comb112(j);
    } else {
      Comb113(j);
    }
  }

  lemma Comb120(j: int)
    requires j == 1
    ensures |Choose(Pattern(j), 2)| == 6 && Sum(Choose(Pattern(j), 2)[0]) == 0x3
    ensures IsKey(0x3) && Weight(0x3) == 2
  {
    var p := Pattern(j);
    assert p == [0x1, 0x2, 0x4, 0x8];
    ChooseFour(p);
    SumShort(p[0], p[1], p[0]);
  }

  lemma Comb121(j: int)
    requires j == 1
    ensures |Choose(Pattern(j), 2)| == 6 && Sum(Choose(Pattern(j), 2)[1]) == 0x5
    ensures IsKey(0x5) && Weight(0x5) == 2
  {
    var p := Pattern(j);
    assert p == [0x1, 0x2, 0x4, 0x8];
    ChooseFour(p);
    SumShort(p[0], p[2], p[0]);
  }

  lemma Comb122(j: int)
    requires j == 1
    ensures |Choose(Pattern(j), 2)| == 6 && Sum(Choose(Pattern(j), 2)[2]) == 0x9
    ensures IsKey(0x9) && Weight(0x9) == 2
  {
    var p := Pattern(j);
    assert p == [0x1, 0x2, 0x4, 0x8];
    ChooseFour(p);
    SumShort(p[0], p[3], p[0]);
  }

  lemma Comb123(j: int)
    requires j == 1
    ensures |Choose(Pattern(j), 2)| == 6 && Sum(Choose(Pattern(j), 2)[3]) == 0x6
    ensures IsKey(0x6) && Weight(0x6) == 2
  {
    var p := Pattern(j);
    assert p == [0x1, 0x2, 0x4, 0x8];
    ChooseFour(p);
    SumShort(p[1], p[2], p[0]);
  }

  lemma Comb124(j: int)
    requires j == 1
    ensures |Choose(Pattern(j), 2)| == 6 && Sum(Choose(Pattern(j), 2)[4]) == 0xA
    ensures IsKey(0xA) && Weight(0xA) == 2
  {
    var p := Pattern(j);
    assert p == [0x1, 0x2, 0x4, 0x8];
    ChooseFour(p);
    SumShort(p[1], p[3], p[0]);
  }

  lemma Comb125(j: int)
    requires j == 1
    ensures |Choose(Pattern(j), 2)| == 6 && Sum(Choose(Pattern(j), 2)[5]) == 0xC
    ensures IsKey(0xC) && Weight(0xC) == 2
  {
    var p := Pattern(j);
    assert p == [0x1, 0x2, 0x4, 0x8];
    ChooseFour(p);
    SumShort(p[2], p[3], p[0]);
  }

  /** Every 2-element combination of pattern 1 sums to a key of weight 2. */
  lemma Written12(j: int, n: int)
    requires j == 1 && 0 <= n < |Choose(Pattern(j), 2)|
    ensures IsKey(Sum(Choose(Pattern(j), 2)[n])) && Weight(Sum(Choose(Pattern(j), 2)[n])) == 2
  {
    if n == 0 {
      Comb120(j);
    } else if n == 1 {
      Comb121(j);
    } else if n == 2 {
      Comb122(j);
    } else if n == 3 {
      Comb123(j);
    } else if n == 4 {
      Comb124(j);
    } else {
      Comb125(j);
    }
  }

  lemma Comb130(j: int)
    requires j == 1
    ensures |Choose(Pattern(j), 3)| == 4 && Sum(Choose(Pattern(j), 3)[0]) == 0x7
    ensures IsKey(0x7) && Weight(0x7) == 3
  {
    var p := Pattern(j);
    assert p == [0x1, 0x2, 0x4, 0x8];
    ChooseFour(p);
    SumShort(p[0], p[1], p[2]);
  }

  lemma Comb131(j: int)
    requires j == 1
    ensures |Choose(Pattern(j), 3)| == 4 && Sum(Choose(Pattern(j), 3)[1]) == 0xB
    ensures IsKey(0xB) && Weight(0xB) == 3
  {
    var p := Pattern(j);
    assert p == [0x1, 0x2, 0x4, 0x8];
    ChooseFour(p);
    SumShort(p[0], p[1], p[3]);
  }

  lemma Comb132(j: int)
    requires j == 1
    ensures |Choose(Pattern(j), 3)| == 4 && Sum(Choose(Pattern(j), 3)[2]) == 0xD
    ensures IsKey(0xD) && Weight(0xD) == 3
  {
    var p := Pattern(j);
    assert p == [0x1, 0x2, 0x4, 0x8];
    ChooseFour(p);
    SumShort(p[0], p[2], p[3]);
  }

  lemma Comb133(j: int)
    requires j == 1
    ensures |Choose(Pattern(j), 3)| == 4 && Sum(Choose(Pattern(j), 3)[3]) == 0xE
    ensures IsKey(0xE) && Weight(0xE) == 3
  {
    var p := Pattern(j);
    assert p == [0x1, 0x2, 0x4, 0x8];
    ChooseFour(p);
    SumShort(p[1], p[2], p[3]);
  }

  /** Every 3-element combination of pattern 1 sums to a key of weight 3. */
  lemma Written13(j: int, n: int)
    requires j == 1 && 0 <= n < |Choose(Pattern(j), 3)|
    ensures IsKey(Sum(Choose(Pattern(j), 3)[n])) && Weight(Sum(Choose(Pattern(j), 3)[n])) == 3
  {
    if n == 0 {
      Comb130(j);
    } else if n == 1 {
      Comb131(j);
    } else if n == 2 {
      Comb132(j);
    } else {
      Comb133(j);
    }
  }

  /** The parts of pattern 1. */
  lemma Parts1(k: bv64)
    requires SubPattern(k, 1)
    ensures k == 0x1
         || k == 0x2
         || k == 0x4
         || k == 0x8
         || k == 0x3
         || k == 0x5
         || k == 0x9
         || k == 0x6
         || k == 0xA
         || k == 0xC
         || k == 0x7
         || k == 0xB
         || k == 0xD
         || k == 0xE
  {}

  /** Every key of pattern 1 is the sum of one of its combinations. */
  lemma Covered1(j: int, k: bv64)
    requires j == 1 && SubPattern(k, j)
    ensures |Choose(Pattern(j), 1)| == 4 && |Choose(Pattern(j), 2)| == 6 && |Choose(Pattern(j), 3)| == 4
    ensures k == Sum(Choose(Pattern(j), 1)[0])
         || k == Sum(Choose(Pattern(j), 1)[1])
         || k == Sum(Choose(Pattern(j), 1)[2])
         || k == Sum(Choose(Pattern(j), 1)[3])
         || k == Sum(Choose(Pattern(j), 2)[0])
         || k == Sum(Choose(Pattern(j), 2)[1])
         || k == Sum(Choose(Pattern(j), 2)[2])
         || k == Sum(Choose(Pattern(j), 2)[3])
         || k == Sum(Choose(Pattern(j), 2)[4])
         || k == Sum(Choose(Pattern(j), 2)[5])
         || k == Sum(Choose(Pattern(j), 3)[0])
         || k == Sum(Choose(Pattern(j), 3)[1])
         || k == Sum(Choose(Pattern(j), 3)[2])
         || k == Sum(Choose(Pattern(j), 3)[3])
  {
    Comb110(j);
    Comb111(j);
    Comb112(j);
    Comb113(j);
    Comb120(j);
    Comb121(j);
    Comb122(j);
    Comb123(j);
    Comb124(j);
    Comb125(j);
    Comb130(j);
    Comb131(j);
    Comb132(j);
    Comb133(j);
    Parts1(k);
  }

  /** Inside pattern 1, a word is a key exactly when it holds one to three of the pattern's bits, and that is its weight. */
  lemma Lookup1(j: int, k: bv64)
    requires j == 1 && Subset(k, Mask(j))
    ensures IsKey(k) <==> 1 <= WeightIn(k, j) <= 3
    ensures IsKey(k) ==> Weight(k) == WeightIn(k, j)
  {}

  /** Inside pattern 1, a filled table holds a word exactly when it has one to three of the pattern's bits, with the score of that many. */
  lemma Table1(m: map<int, int>, s: seq<int>, j: int, k: bv64)
    requires j == 1 && Subset(k, Mask(j)) && Scored(m, s)
    ensures k as int in m <==> 1 <= WeightIn(k, j) <= 3
    ensures k as int in m ==> m[k as int] == s[WeightIn(k, j)]
  {
    Lookup1(j, k);
    assert Entry(m, s, k);
  }

  // -----------------------------------------------------------------------
  // The rising diagonal pattern

  lemma Comb210(j: int)
    requires j == 2
    ensures |Choose(Pattern(j), 1)| == 4 && Sum(Choose(Pattern(j), 1)[0]) == 0x1
    ensures IsKey(0x1) && Weight(0x1) == 1
  {
    var p := Pattern(j);
    assert p == [0x1, 0x100, 0x1_0000, 0x100_0000];
    ChooseFour(p);
    SumShort(p[0], p[0], p[0]);
  }

  lemma Comb211(j: int)
    requires j == 2
    ensures |Choose(Pattern(j), 1)| == 4 && Sum(Choose(Pattern(j), 1)[1]) == 0x100
    ensures IsKey(0x100) && Weight(0x100) == 1
  {
    var p := Pattern(j);
    assert p == [0x1, 0x100, 0x1_0000, 0x100_0000];
    ChooseFour(p);
    SumShort(p[1], p[0], p[0]);
  }

  lemma Comb212(j: int)
    requires j == 2
    ensures |Choose(Pattern(j), 1)| == 4 && Sum(Choose(Pattern(j), 1)[2]) == 0x1_0000
    ensures IsKey(0x1_0000) && Weight(0x1_0000) == 1
  {
    var p := Pattern(j);
    assert p == [0x1, 0x100, 0x1_0000, 0x100_0000];
    ChooseFour(p);
    SumShort(p[2], p[0], p[0]);
  }

  lemma Comb213(j: int)
    requires j == 2
    ensures |Choose(Pattern(j), 1)| == 4 && Sum(Choose(Pattern(j), 1)[3]) == 0x100_0000
    ensures IsKey(0x100_0000) && Weight(0x100_0000) == 1
  {
    var p := Pattern(j);
    assert p == [0x1, 0x100, 0x1_0000, 0x100_0000];
    ChooseFour(p);
    SumShort(p[3], p[0], p[0]);
  }

  /** Every 1-element combination of pattern 2 sums to a key of weight 1. */
  lemma Written21(j: int, n: int)
    requires j == 2 && 0 <= n < |Choose(Pattern(j), 1)|
    ensures IsKey(Sum(Choose(Pattern(j), 1)[n])) && Weight(Sum(Choose(Pattern(j), 1)[n])) == 1
  {
    if n == 0 {
      Comb210(j);
    } else if n == 1 {
      Comb211(j);
    } else if n == 2 {
      Comb212(j);
    } else {
      Comb213(j);
    }
  }

  lemma Comb220(j: int)
    requires j == 2
    ensures |Choose(Pattern(j), 2)| == 6 && Sum(Choose(Pattern(j), 2)[0]) == 0x101
    ensures IsKey(0x101) && Weight(0x101) == 2
  {
    var p := Pattern(j);
    assert p == [0x1, 0x100, 0x1_0000, 0x100_0000];
    ChooseFour(p);
    SumShort(p[0], p[1], p[0]);
  }

  lemma Comb221(j: int)
    requires j == 2
    ensures |Choose(Pattern(j), 2)| == 6 && Sum(Choose(Pattern(j), 2)[1]) == 0x1_0001
    ensures IsKey(0x1_0001) && Weight(0x1_0001) == 2
  {
    var p := Pattern(j);
    assert p == [0x1, 0x100, 0x1_0000, 0x100_0000];
    ChooseFour(p);
    SumShort(p[0], p[2], p[0]);
  }

  lemma Comb222(j: int)
    requires j == 2
    ensures |Choose(Pattern(j), 2)| == 6 && Sum(Choose(Pattern(j), 2)[2]) == 0x100_0001
    ensures IsKey(0x100_0001) && Weight(0x100_0001) == 2
  {
    var p := Pattern(j);
    assert p == [0x1, 0x100, 0x1_0000, 0x100_0000];
    ChooseFour(p);
    SumShort(p[0], p[3], p[0]);
  }

  lemma Comb223(j: int)
    requires j == 2
    ensures |Choose(Pattern(j), 2)| == 6 && Sum(Choose(Pattern(j), 2)[3]) == 0x1_0100
    ensures IsKey(0x1_0100) && Weight(0x1_0100) == 2
  {
    var p := Pattern(j);
    assert p == [0x1, 0x100, 0x1_0000, 0x100_0000];
    ChooseFour(p);
    SumShort(p[1], p[2], p[0]);
  }

  lemma Comb224(j: int)
    requires j == 2
    ensures |Choose(Pattern(j), 2)| == 6 && Sum(Choose(Pattern(j), 2)[4]) == 0x100_0100
    ensures IsKey(0x100_0100) && Weight(0x100_0100) == 2
  {
    var p := Pattern(j);
    assert p == [0x1, 0x100, 0x1_0000, 0x100_0000];
    ChooseFour(p);
    SumShort(p[1], p[3], p[0]);
  }

  lemma Comb225(j: int)
    requires j == 2
    ensures |Choose(Pattern(j), 2)| == 6 && Sum(Choose(Pattern(j), 2)[5]) == 0x101_0000
    ensures IsKey(0x101_0000) && Weight(0x101_0000) == 2
  {
    var p := Pattern(j);
    assert p == [0x1, 0x100, 0x1_0000, 0x100_0000];
    ChooseFour(p);
    SumShort(p[2], p[3], p[0]);
  }

  /** Every 2-element combination of pattern 2 sums to a key of weight 2. */
  lemma Written22(j: int, n: int)
    requires j == 2 && 0 <= n < |Choose(Pattern(j), 2)|
    ensures IsKey(Sum(Choose(Pattern(j), 2)[n])) && Weight(Sum(Choose(Pattern(j), 2)[n])) == 2
  {
    if n == 0 {
      Comb220(j);
    } else if n == 1 {
      Comb221(j);
    } else if n == 2 {
      Comb222(j);
    } else if n == 3 {
      Comb223(j);
    } else if n == 4 {
      Comb224(j);
    } else {
      Comb225(j);
    }
  }

  lemma Comb230(j: int)
    requires j == 2
    ensures |Choose(Pattern(j), 3)| == 4 && Sum(Choose(Pattern(j), 3)[0]) == 0x1_0101
    ensures IsKey(0x1_0101) && Weight(0x1_0101) == 3
  {
    var p := Pattern(j);
    assert p == [0x1, 0x100, 0x1_0000, 0x100_0000];
    ChooseFour(p);
    SumShort(p[0], p[1], p[2]);
  }

  lemma Comb231(j: int)
    requires j == 2
    ensures |Choose(Pattern(j), 3)| == 4 && Sum(Choose(Pattern(j), 3)[1]) == 0x100_0101
    ensures IsKey(0x100_0101) && Weight(0x100_0101) == 3
  {
    var p := Pattern(j);
    assert p == [0x1, 0x100, 0x1_0000, 0x100_0000];
    ChooseFour(p);
    SumShort(p[0], p[1], p[3]);
  }

  lemma Comb232(j: int)
    requires j == 2
    ensures |Choose(Pattern(j), 3)| == 4 && Sum(Choose(Pattern(j), 3)[2]) == 0x101_0001
    ensures IsKey(0x101_0001) && Weight(0x101_0001) == 3
  {
    var p := Pattern(j);
    assert p == [0x1, 0x100, 0x1_0000, 0x100_0000];
    ChooseFour(p);
    SumShort(p[0], p[2], p[3]);
  }

  lemma Comb233(j: int)
    requires j == 2
    ensures |Choose(Pattern(j), 3)| == 4 && Sum(Choose(Pattern(j), 3)[3]) == 0x101_0100
    ensures IsKey(0x101_0100) && Weight(0x101_0100) == 3
  {
    var p := Pattern(j);
    assert p == [0x1, 0x100, 0x1_0000, 0x100_0000];
    ChooseFour(p);
    SumShort(p[1], p[2], p[3]);
  }

  /** Every 3-element combination of pattern 2 sums to a key of weight 3. */
  lemma Written23(j: int, n: int)
    requires j == 2 && 0 <= n < |Choose(Pattern(j), 3)|
    ensures IsKey(Sum(Choose(Pattern(j), 3)[n])) && Weight(Sum(Choose(Pattern(j), 3)[n])) == 3
  {
    if n == 0 {
      Comb230(j);
    } else if n == 1 {
      Comb231(j);
    } else if n == 2 {
      Comb232(j);
    } else {
      Comb233(j);
    }
  }

  /** The parts of pattern 2. */
  lemma Parts2(k: bv64)
    requires SubPattern(k, 2)
    ensures k == 0x1
         || k == 0x100
         || k == 0x1_0000
         || k == 0x100_0000
         || k == 0x101
         || k == 0x1_0001
         || k == 0x100_0001
         || k == 0x1_0100
         || k == 0x100_0100
         || k == 0x101_0000
         || k == 0x1_0101
         || k == 0x100_0101
         || k == 0x101_0001
         || k == 0x101_0100
  {}

  /** Every key of pattern 2 is the sum of one of its combinations. */
  lemma Covered2(j: int, k: bv64)
    requires j == 2 && SubPattern(k, j)
    ensures |Choose(Pattern(j), 1)| == 4 && |Choose(Pattern(j), 2)| == 6 && |Choose(Pattern(j), 3)| == 4
    ensures k == Sum(Choose(Pattern(j), 1)[0])
         || k == Sum(Choose(Pattern(j), 1)[1])
         || k == Sum(Choose(Pattern(j), 1)[2])
         || k == Sum(Choose(Pattern(j), 1)[3])
         || k == Sum(Choose(Pattern(j), 2)[0])
         || k == Sum(Choose(Pattern(j), 2)[1])
         || k == Sum(Choose(Pattern(j), 2)[2])
         || k == Sum(Choose(Pattern(j), 2)[3])
         || k == Sum(Choose(Pattern(j), 2)[4])
         || k == Sum(Choose(Pattern(j), 2)[5])
         || k == Sum(Choose(Pattern(j), 3)[0])
         || k == Sum(Choose(Pattern(j), 3)[1])
         || k == Sum(Choose(Pattern(j), 3)[2])
         || k == Sum(Choose(Pattern(j), 3)[3])
  {
    Comb210(j);
    Comb211(j);
    Comb212(j);
    Comb213(j);
    Comb220(j);
    Comb221(j);
    Comb222(j);
    Comb223(j);
    Comb224(j);
    Comb225(j);
    Comb230(j);
    Comb231(j);
    Comb232(j);
    Comb233(j);
    Parts2(k);
  }

  /** Inside pattern 2, a word is a key exactly when it holds one to three of the pattern's bits, and that is its weight. */
  lemma Lookup2(j: int, k: bv64)
    requires j == 2 && Subset(k, Mask(j))
    ensures IsKey(k) <==> 1 <= WeightIn(k, j) <= 3
    ensures IsKey(k) ==> Weight(k) == WeightIn(k, j)
  {}

  /** Inside pattern 2, a filled table holds a word exactly when it has one to three of the pattern's bits, with the score of that many. */
  lemma Table2(m: map<int, int>, s: seq<int>, j: int, k: bv64)
    requires j == 2 && Subset(k, Mask(j)) && Scored(m, s)
    ensures k as int in m <==> 1 <= WeightIn(k, j) <= 3
    ensures k as int in m ==> m[k as int] == s[WeightIn(k, j)]
  {
    Lookup2(j, k);
    assert Entry(m, s, k);
  }

  // -----------------------------------------------------------------------
  // The falling diagonal pattern

  lemma Comb310(j: int)
    requires j == 3
    ensures |Choose(Pattern(j), 1)| == 4 && Sum(Choose(Pattern(j), 1)[0]) == 0x8
    ensures IsKey(0x8) && Weight(0x8) == 1
  {
    var p := Pattern(j);
    assert p == [0x8, 0x200, 0x8000, 0x20_0000];
    ChooseFour(p);
    SumShort(p[0], p[0], p[0]);
  }

  lemma Comb311(j: int)
    requires j == 3
    ensures |Choose(Pattern(j), 1)| == 4 && Sum(Choose(Pattern(j), 1)[1]) == 0x200
    ensures IsKey(0x200) && Weight(0x200) == 1
  {
    var p := Pattern(j);
    assert p == [0x8, 0x200, 0x8000, 0x20_0000];
    ChooseFour(p);
    SumShort(p[1], p[0], p[0]);
  }

  lemma Comb312(j: int)
    requires j == 3
    ensures |Choose(Pattern(j), 1)| == 4 && Sum(Choose(Pattern(j), 1)[2]) == 0x8000
    ensures IsKey(0x8000) && Weight(0x8000) == 1
  {
    var p := Pattern(j);
    assert p == [0x8, 0x200, 0x8000, 0x20_0000];
    ChooseFour(p);
    SumShort(p[2], p[0], p[0]);
  }

  lemma Comb313(j: int)
    requires j == 3
    ensures |Choose(Pattern(j), 1)| == 4 && Sum(Choose(Pattern(j), 1)[3]) == 0x20_0000
    ensures IsKey(0x20_0000) && Weight(0x20_0000) == 1
  {
    var p := Pattern(j);
    assert p == [0x8, 0x200, 0x8000, 0x20_0000];
    ChooseFour(p);
    SumShort(p[3], p[0], p[0]);
  }

  /** Every 1-element combination of pattern 3 sums to a key of weight 1. */
  lemma Written31(j: int, n: int)
    requires j == 3 && 0 <= n < |Choose(Pattern(j), 1)|
    ensures IsKey(Sum(Choose(Pattern(j), 1)[n])) && Weight(Sum(Choose(Pattern(j), 1)[n])) == 1
  {
    if n == 0 {
      Comb310(j);
    } else if n == 1 {
      Comb311(j);
    } else if n == 2 {
      Comb312(j);
    } else {
      Comb313(j);
    }
  }

  lemma Comb320(j: int)
    requires j == 3
    ensures |Choose(Pattern(j), 2)| == 6 && Sum(Choose(Pattern(j), 2)[0]) == 0x208
    ensures IsKey(0x208) && Weight(0x208) == 2
  {
    var p := Pattern(j);
    assert p == [0x8, 0x200, 0x8000, 0x20_0000];
    ChooseFour(p);
    SumShort(p[0], p[1], p[0]);
  }

  lemma Comb321(j: int)
    requires j == 3
    ensures |Choose(Pattern(j), 2)| == 6 && Sum(Choose(Pattern(j), 2)[1]) == 0x8008
    ensures IsKey(0x8008) && Weight(0x8008) == 2
  {
    var p := Pattern(j);
    assert p == [0x8, 0x200, 0x8000, 0x20_0000];
    ChooseFour(p);
    SumShort(p[0], p[2], p[0]);
  }

  lemma Comb322(j: int)
    requires j == 3
    ensures |Choose(Pattern(j), 2)| == 6 && Sum(Choose(Pattern(j), 2)[2]) == 0x20_0008
    ensures IsKey(0x20_0008) && Weight(0x20_0008) == 2
  {
    var p := Pattern(j);
    assert p == [0x8, 0x200, 0x8000, 0x20_0000];
    ChooseFour(p);
    SumShort(p[0], p[3], p[0]);
  }

  lemma Comb323(j: int)
    requires j == 3
    ensures |Choose(Pattern(j), 2)| == 6 && Sum(Choose(Pattern(j), 2)[3]) == 0x8200
    ensures IsKey(0x8200) && Weight(0x8200) == 2
  {
    var p := Pattern(j);
    assert p == [0x8, 0x200, 0x8000, 0x20_0000];
    ChooseFour(p);
    SumShort(p[1], p[2], p[0]);
  }

  lemma Comb324(j: int)
    requires j == 3
    ensures |Choose(Pattern(j), 2)| == 6 && Sum(Choose(Pattern(j), 2)[4]) == 0x20_0200
    ensures IsKey(0x20_0200) && Weight(0x20_0200) == 2
  {
    var p := Pattern(j);
    assert p == [0x8, 0x200, 0x8000, 0x20_0000];
    ChooseFour(p);
    SumShort(p[1], p[3], p[0]);
  }

  lemma Comb325(j: int)
    requires j == 3
    ensures |Choose(Pattern(j), 2)| == 6 && Sum(Choose(Pattern(j), 2)[5]) == 0x20_8000
    ensures IsKey(0x20_8000) && Weight(0x20_8000) == 2
  {
    var p := Pattern(j);
    assert p == [0x8, 0x200, 0x8000, 0x20_0000];
    ChooseFour(p);
    SumShort(p[2], p[3], p[0]);
  }

  /** Every 2-element combination of pattern 3 sums to a key of weight 2. */
  lemma Written32(j: int, n: int)
    requires j == 3 && 0 <= n < |Choose(Pattern(j), 2)|
    ensures IsKey(Sum(Choose(Pattern(j), 2)[n])) && Weight(Sum(Choose(Pattern(j), 2)[n])) == 2
  {
    if n == 0 {
      Comb320(j);
    } else if n == 1 {
      Comb321(j);
    } else if n == 2 {
      Comb322(j);
    } else if n == 3 {
      Comb323(j);
    } else if n == 4 {
      Comb324(j);
    } else {
      Comb325(j);
    }
  }

  lemma Comb330(j: int)
    requires j == 3
    ensures |Choose(Pattern(j), 3)| == 4 && Sum(Choose(Pattern(j), 3)[0]) == 0x8208
    ensures IsKey(0x8208) && Weight(0x8208) == 3
  {
    var p := Pattern(j);
    assert p == [0x8, 0x200, 0x8000, 0x20_0000];
    ChooseFour(p);
    SumShort(p[0], p[1], p[2]);
  }

  lemma Comb331(j: int)
    requires j == 3
    ensures |Choose(Pattern(j), 3)| == 4 && Sum(Choose(Pattern(j), 3)[1]) == 0x20_0208
    ensures IsKey(0x20_0208) && Weight(0x20_0208) == 3
  {
    var p := Pattern(j);
    assert p == [0x8, 0x200, 0x8000, 0x20_0000];
    ChooseFour(p);
    SumShort(p[0], p[1], p[3]);
  }

  lemma Comb332(j: int)
    requires j == 3
    ensures |Choose(Pattern(j), 3)| == 4 && Sum(Choose(Pattern(j), 3)[2]) == 0x20_8008
    ensures IsKey(0x20_8008) && Weight(0x20_8008) == 3
  {
    var p := Pattern(j);
    assert p == [0x8, 0x200, 0x8000, 0x20_0000];
    ChooseFour(p);
    SumShort(p[0], p[2], p[3]);
  }

  lemma Comb333(j: int)
    requires j == 3
    ensures |Choose(Pattern(j), 3)| == 4 && Sum(Choose(Pattern(j), 3)[3]) == 0x20_8200
    ensures IsKey(0x20_8200) && Weight(0x20_8200) == 3
  {
    var p := Pattern(j);
    assert p == [0x8, 0x200, 0x8000, 0x20_0000];
    ChooseFour(p);
    SumShort(p[1], p[2], p[3]);
  }

  /** Every 3-element combination of pattern 3 sums to a key of weight 3. */
  lemma Written33(j: int, n: int)
    requires j == 3 && 0 <= n < |Choose(Pattern(j), 3)|
    ensures IsKey(Sum(Choose(Pattern(j), 3)[n])) && Weight(Sum(Choose(Pattern(j), 3)[n])) == 3
  {
    if n == 0 {
      Comb330(j);
    } else if n == 1 {
      Comb331(j);
    } else if n == 2 {
      Comb332(j);
    } else {
      Comb333(j);
    }
  }

  /** The parts of pattern 3. */
  lemma Parts3(k: bv64)
    requires SubPattern(k, 3)
    ensures k == 0x8
         || k == 0x200
         || k == 0x8000
         || k == 0x20_0000
         || k == 0x208
         || k == 0x8008
         || k == 0x20_0008
         || k == 0x8200
         || k == 0x20_0200
         || k == 0x20_8000
         || k == 0x8208
         || k == 0x20_0208
         || k == 0x20_8008
         || k == 0x20_8200
  {}

  /** Every key of pattern 3 is the sum of one of its combinations. */
  lemma Covered3(j: int, k: bv64)
    requires j == 3 && SubPattern(k, j)
    ensures |Choose(Pattern(j), 1)| == 4 && |Choose(Pattern(j), 2)| == 6 && |Choose(Pattern(j), 3)| == 4
    ensures k == Sum(Choose(Pattern(j), 1)[0])
         || k == Sum(Choose(Pattern(j), 1)[1])
         || k == Sum(Choose(Pattern(j), 1)[2])
         || k == Sum(Choose(Pattern(j), 1)[3])
         || k == Sum(Choose(Pattern(j), 2)[0])
         || k == Sum(Choose(Pattern(j), 2)[1])
         || k == Sum(Choose(Pattern(j), 2)[2])
         || k == Sum(Choose(Pattern(j), 2)[3])
         || k == Sum(Choose(Pattern(j), 2)[4])
         || k == Sum(Choose(Pattern(j), 2)[5])
         || k == Sum(Choose(Pattern(j), 3)[0])
         || k == Sum(Choose(Pattern(j), 3)[1])
         || k == Sum(Choose(Pattern(j), 3)[2])
         || k == Sum(Choose(Pattern(j), 3)[3])
  {
    Comb310(j);
    Comb311(j);
    Comb312(j);
    Comb313(j);
    Comb320(j);
    Comb321(j);
    Comb322(j);
    Comb323(j);
    Comb324(j);
    Comb325(j);
    Comb330(j);
    Comb331(j);
    Comb332(j);
    Comb333(j);
    Parts3(k);
  }

  /** Inside pattern 3, a word is a key exactly when it holds one to three of the pattern's bits, and that is its weight. */
  lemma Lookup3(j: int, k: bv64)
    requires j == 3 && Subset(k, Mask(j))
    ensures IsKey(k) <==> 1 <= WeightIn(k, j) <= 3
    ensures IsKey(k) ==> Weight(k) == WeightIn(k, j)
  {}

  /** Inside pattern 3, a filled table holds a word exactly when it has one to three of the pattern's bits, with the score of that many. */
  lemma Table3(m: map<int, int>, s: seq<int>, j: int, k: bv64)
    requires j == 3 && Subset(k, Mask(j)) && Scored(m, s)
    ensures k as int in m <==> 1 <= WeightIn(k, j) <= 3
    ensures k as int in m ==> m[k as int] == s[WeightIn(k, j)]
  {
    Lookup3(j, k);
    assert Entry(m, s, k);
  }

  lemma MaskSum0(j: int)
    requires j == 0
    ensures Sum(Pattern(j)) == Mask(j)
  {
    var p := Pattern(j);
    assert p == [0x1, 0x80, 0x4000, 0x20_0000];
    SumFour(0x1, 0x80, 0x4000, 0x20_0000);
    assert Mask(j) == 0x20_4081;
  }

  lemma MaskSum1(j: int)
    requires j == 1
    ensures Sum(Pattern(j)) == Mask(j)
  {
    var p := Pattern(j);
    assert p == [0x1, 0x2, 0x4, 0x8];
    SumFour(0x1, 0x2, 0x4, 0x8);
    assert Mask(j) == 0xF;
  }

  lemma MaskSum2(j: int)
    requires j == 2
    ensures Sum(Pattern(j)) == Mask(j)
  {
    var p := Pattern(j);
    assert p == [0x1, 0x100, 0x1_0000, 0x100_0000];
    SumFour(0x1, 0x100, 0x1_0000, 0x100_0000);
    assert Mask(j) == 0x101_0101;
  }

  lemma MaskSum3(j: int)
    requires j == 3
    ensures Sum(Pattern(j)) == Mask(j)
  {
    var p := Pattern(j);
    assert p == [0x8, 0x200, 0x8000, 0x20_0000];
    SumFour(0x8, 0x200, 0x8000, 0x20_0000);
    assert Mask(j) == 0x20_8208;
  }

  /** `mask = sum(pat)`: the mask `evaluate` starts a kind with is the union of its pattern. */
  lemma MaskSum(j: int)
    requires 0 <= j < 4
    ensures Sum(Pattern(j)) == Mask(j)
  {
    if j == 0 {
      MaskSum0(j);
    } else if j == 1 {
      MaskSum1(j);
    } else if j == 2 {
      MaskSum2(j);
    } else {
      MaskSum3(j);
    }
  }

  lemma Complete0(done: set<bv64>, j: int)
    requires j == 0
    requires forall r, n :: 1 <= r <= 3 && 0 <= n < |Choose(Pattern(j), r)| ==> Sum(Choose(Pattern(j), r)[n]) in done
    ensures forall k :: SubPattern(k, j) ==> k in done
  {
    forall k | SubPattern(k, j)
      ensures k in done
    {
      Covered0(j, k);
    }
  }

  lemma Complete1(done: set<bv64>, j: int)
    requires j == 1
    requires forall r, n :: 1 <= r <= 3 && 0 <= n < |Choose(Pattern(j), r)| ==> Sum(Choose(Pattern(j), r)[n]) in done
    ensures forall k :: SubPattern(k, j) ==> k in done
  {
    forall k | SubPattern(k, j)
      ensures k in done
    {
      Covered1(j, k);
    }
  }

  lemma Complete2(done: set<bv64>, j: int)
    requires j == 2
    requires forall r, n :: 1 <= r <= 3 && 0 <= n < |Choose(Pattern(j), r)| ==> Sum(Choose(Pattern(j), r)[n]) in done
    ensures forall k :: SubPattern(k, j) ==> k in done
  {
    forall k | SubPattern(k, j)
      ensures k in done
    {
      Covered2(j, k);
    }
  }

  lemma Complete3(done: set<bv64>, j: int)
    requires j == 3
    requires forall r, n :: 1 <= r <= 3 && 0 <= n < |Choose(Pattern(j), r)| ==> Sum(Choose(Pattern(j), r)[n]) in done
    ensures forall k :: SubPattern(k, j) ==> k in done
  {
    forall k | SubPattern(k, j)
      ensures k in done
    {
      Covered3(j, k);
    }
  }

  /** Once every combination of pattern j is written, so is every key of the pattern. */
  lemma Complete(done: set<bv64>, j: int)
    requires 0 <= j < 4
    requires forall r, n :: 1 <= r <= 3 && 0 <= n < |Choose(Pattern(j), r)| ==> Sum(Choose(Pattern(j), r)[n]) in done
    ensures forall k :: SubPattern(k, j) ==> k in done
  {
    if j == 0 {
      Complete0(done, j);
    } else if j == 1 {
      Complete1(done, j);
    } else if j == 2 {
      Complete2(done, j);
    } else {
      Complete3(done, j);
    }
  }

  /** The sum of every combination `patternSetting` writes is a key of the weight it is written with. */
  lemma Written(j: int, r: int, n: int)
    requires 0 <= j < 4 && 1 <= r <= 3 && 0 <= n < |Choose(Pattern(j), r)|
    ensures IsKey(Sum(Choose(Pattern(j), r)[n])) && Weight(Sum(Choose(Pattern(j), r)[n])) == r
  {
    if j == 0 && r == 1 {
      Written01(j, n);
    } else if j == 0 && r == 2 {
      Written02(j, n);
    } else if j == 0 && r == 3 {
      Written03(j, n);
    } else if j == 1 && r == 1 {
      Written11(j, n);
    } else if j == 1 && r == 2 {
      Written12(j, n);
    } else if j == 1 && r == 3 {
      Written13(j, n);
    } else if j == 2 && r == 1 {
      Written21(j, n);
    } else if j == 2 && r == 2 {
      Written22(j, n);
    } else if j == 2 && r == 3 {
      Written23(j, n);
    } else if j == 3 && r == 1 {
      Written31(j, n);
    } else if j == 3 && r == 2 {
      Written32(j, n);
    } else {
      Written33(j, n);
    }
  }

  /** Words with the same integer value are equal. */
  lemma SameValue(a: bv64, b: bv64)
    requires a as int == b as int
    ensures a == b
  {
    assert (a as int) as bv64 == a;
    assert (b as int) as bv64 == b;
  }
}
