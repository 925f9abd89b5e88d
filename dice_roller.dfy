/** Keep-highest dice roller: roll `number` dice with `size` sides, sort them,
    discard the smallest ones one at a time and sum what is left.
    The random source is an explicit stream of draws; a roll consumes the
    first `number` of them. */
module Dice {

  /** Sum of a sequence of dice (Python's `sum`). */
  function Sum(s: seq<int>): int
  {
    if s == [] then 0 else s[0] + Sum(s[1..])
  }

  /** Every element lies in [lo, hi]. */
  predicate InRange(s: seq<int>, lo: int, hi: int)
  {
    forall i :: 0 <= i < |s| ==> lo <= s[i] <= hi
  }

  /** Non-decreasing order. */
  predicate Ascending(s: seq<int>)
  {
    forall i, j :: 0 <= i < j < |s| ==> s[i] <= s[j]
  }

  /** Number of dice rolled for a requested `number` (a non-positive count
      rolls nothing, as `range(0, number)` is then empty). */
  function DiceCount(number: int): nat
  {
    if number > 0 then number else 0
  }

  /** The draws a roll needs: at least `number` of them, each a face of a
      `size`-sided die (the promise of `randint(1, size)`). */
  predicate ValidDraws(draws: seq<int>, number: int, size: int)
  {
    DiceCount(number) <= |draws| && InRange(draws[..DiceCount(number)], 1, size)
  }

  /** What is left of a valid stream after `k` of the `number` dice it was
      checked for are taken is valid for the remaining dice. */
  lemma ValidDrawsDrop(draws: seq<int>, number: nat, size: int, k: nat)
    requires ValidDraws(draws, number, size) && k <= number
    ensures ValidDraws(draws[k..], number - k, size)
  {
    assert draws[k..][..number - k] == draws[..number][k..];
  }

  function Insert(x: int, s: seq<int>): (r: seq<int>)
    requires Ascending(s)
    ensures |r| == |s| + 1
    ensures r[0] == x || (s != [] && r[0] == s[0])
    ensures Ascending(r)
    ensures multiset(r) == multiset(s) + multiset{x}
  {
    if s == [] || x <= s[0] then [x] + s
    else
      var t := Insert(x, s[1..]);
      assert s == [s[0]] + s[1..];
      assert s[0] <= t[0];
      [s[0]] + t
  }

  /** The ascending rearrangement of `s` (what `list.sort()` leaves behind). */
  function Sorted(s: seq<int>): (r: seq<int>)
    ensures |r| == |s|
    ensures Ascending(r)
    ensures multiset(r) == multiset(s)
  {
    if s == [] then []
    else
      assert s == [s[0]] + s[1..];
      Insert(s[0], Sorted(s[1..]))
  }

  /** How many of the sorted dice are discarded: `range(keep, number)` runs
      `number - keep` times, and a removal from an empty list removes nothing. */
  function DropCount(count: nat, keep: int): (d: nat)
    ensures d <= count
    ensures keep >= count ==> d == 0
    ensures keep <= 0 ==> d == count
    ensures 0 <= keep <= count ==> count - d == keep
  {
    if keep >= count then 0 else if keep <= 0 then count else count - keep
  }

  /** The dice thrown away: the smallest `DropCount` of the sorted rolls. */
  function Discarded(rolls: seq<int>, keep: int): seq<int>
  {
    Sorted(rolls)[..DropCount(|rolls|, keep)]
  }

  /** The dice that survive: the kept count of the rolled dice, in ascending
      order. */
  function Kept(rolls: seq<int>, keep: int): (r: seq<int>)
    ensures |r| == |rolls| - DropCount(|rolls|, keep)
  {
    var s := Sorted(rolls);
    var d := DropCount(|rolls|, keep);
    assert s == s[..d] + s[d..];
    s[d..]
  }

  /** The value of a roll whose dice came up `rolls`: nothing when no die is
      kept, the plain sum when every die is kept. */
  function RollTotal(rolls: seq<int>, keep: int): (r: int)
    ensures keep <= 0 ==> r == 0
    ensures keep >= |rolls| ==> r == Sum(rolls)
  {
    SumSorted(rolls);
    Sum(Kept(rolls, keep))
  }

  /** `dice_roller(number, size, keep)` with the random source made explicit:
      the first `number` draws are the dice, the rest of the stream is returned. */
  method Roll(number: int, size: int, keep: int, draws: seq<int>) returns (total: int, rest: seq<int>)
    requires ValidDraws(draws, number, size)
    ensures rest == draws[DiceCount(number)..]
    ensures total == RollTotal(draws[..DiceCount(number)], keep)
    ensures keep >= number ==> DiceCount(number) <= total <= DiceCount(number) * size
    ensures 0 <= keep < number ==> keep <= total <= keep * size
    ensures keep <= 0 ==> total == 0
  {
    var n := DiceCount(number);
    var rolls: seq<int> := [];
    var i := 0;
    while i < number
      invariant 0 <= i <= n
      invariant rolls == draws[..i]
    {
      rolls := rolls + [draws[i]];
      i := i + 1;
    }
    assert i == n && rolls == draws[..n];
    ghost var thrown := rolls;
    rolls := Sorted(rolls);
    var j := keep;
    while j < number
      invariant keep <= j
      invariant keep < number ==> j <= number
      invariant keep >= number ==> j == keep
      invariant rolls == Sorted(thrown)[Min(j - keep, n)..]
    {
      rolls := if rolls == [] then [] else rolls[1..];
      j := j + 1;
    }
    assert Min(j - keep, n) == DropCount(n, keep);
    assert rolls == Kept(thrown, keep);
    total := Sum(rolls);
    rest := draws[n..];
    RollBounds(thrown, size, keep);
  }

  function Min(a: int, b: int): int
  {
    if a <= b then a else b
  }

  // ---------------------------------------------------------------------
  // Properties of the roll

  lemma {:induction false} SumBounds(s: seq<int>, lo: int, hi: int)
    requires InRange(s, lo, hi)
    ensures |s| * lo <= Sum(s) <= |s| * hi
  {
    if s != [] {
      SumBounds(s[1..], lo, hi);
      assert |s| * lo == lo + (|s| - 1) * lo;
      assert |s| * hi == hi + (|s| - 1) * hi;
    }
  }

  /** Inserting a die adds its face to the sum. */
  lemma {:induction false} SumInsert(x: int, s: seq<int>)
    requires Ascending(s)
    ensures Sum(Insert(x, s)) == x + Sum(s)
  {
    if s != [] && x > s[0] {
      SumInsert(x, s[1..]);
    }
  }

  /** Sorting does not change the sum. */
  lemma {:induction false} SumSorted(s: seq<int>)
    ensures Sum(Sorted(s)) == Sum(s)
  {
    if s != [] {
      SumSorted(s[1..]);
      SumInsert(s[0], Sorted(s[1..]));
    }
  }

  lemma SortedInRange(s: seq<int>, lo: int, hi: int)
    requires InRange(s, lo, hi)
    ensures InRange(Sorted(s), lo, hi)
  {
    var r := Sorted(s);
    forall i | 0 <= i < |r| ensures lo <= r[i] <= hi {
      assert r[i] in multiset(r);
      assert r[i] in multiset(s);
    }
  }

  /** The total of a roll lies between the number of kept dice and that many
      times the die size. */
  lemma RollBounds(rolls: seq<int>, size: int, keep: int)
    requires InRange(rolls, 1, size)
    ensures |Kept(rolls, keep)| == |rolls| - DropCount(|rolls|, keep)
    ensures keep >= |rolls| ==> |rolls| <= RollTotal(rolls, keep) <= |rolls| * size
    ensures 0 <= keep < |rolls| ==> keep <= RollTotal(rolls, keep) <= keep * size
    ensures keep <= 0 ==> RollTotal(rolls, keep) == 0
  {
    SortedInRange(rolls, 1, size);
    var k := Kept(rolls, keep);
    assert InRange(k, 1, size);
    SumBounds(k, 1, size);
  }

  /** Keep-highest: the discarded and kept dice together are exactly the
      rolled dice, and no discarded die beats a kept one. */
  lemma KeepsHighest(rolls: seq<int>, keep: int)
    ensures multiset(Discarded(rolls, keep)) + multiset(Kept(rolls, keep)) == multiset(rolls)
    ensures |Kept(rolls, keep)| == |rolls| - DropCount(|rolls|, keep)
    ensures forall a, b :: a in Discarded(rolls, keep) && b in Kept(rolls, keep) ==> a <= b
  {
    var s := Sorted(rolls);
    var d := DropCount(|rolls|, keep);
    assert s == s[..d] + s[d..];
    forall a, b | a in s[..d] && b in s[d..] ensures a <= b {
      var i :| 0 <= i < d && s[i] == a;
      var j :| d <= j < |s| && s[j] == b;
    }
  }

  lemma HeadIsLeast(s: seq<int>, x: int)
    requires Ascending(s) && x in multiset(s)
    ensures s[0] <= x
  {
    var j :| 0 <= j < |s| && s[j] == x;
  }

  lemma TailMultiset(a: seq<int>)
    requires a != []
    ensures multiset(a[1..]) == multiset(a) - multiset{a[0]}
  {
    assert a == [a[0]] + a[1..];
  }

  /** Two ascending sequences with the same elements are equal. */
  lemma {:induction false} AscendingUnique(a: seq<int>, b: seq<int>)
    requires Ascending(a) && Ascending(b)
    requires multiset(a) == multiset(b)
    ensures a == b
  {
    assert |a| == |multiset(a)| == |multiset(b)| == |b|;
    if a != [] {
      assert a[0] in multiset(a) && b[0] in multiset(b);
      HeadIsLeast(a, b[0]);
      HeadIsLeast(b, a[0]);
      assert a[0] == b[0];
      TailMultiset(a);
      TailMultiset(b);
      AscendingUnique(a[1..], b[1..]);
      assert a == [a[0]] + a[1..] && b == [b[0]] + b[1..];
    }
  }

  /** The result depends only on which faces came up, not their order. */
  lemma OrderIndependent(r1: seq<int>, r2: seq<int>, keep: int)
    requires multiset(r1) == multiset(r2)
    ensures RollTotal(r1, keep) == RollTotal(r2, keep)
  {
    AscendingUnique(Sorted(r1), Sorted(r2));
    assert |r1| == |multiset(r1)| == |multiset(r2)| == |r2|;
  }

  lemma {:induction false} SumSuffixMonotone(s: seq<int>, i: nat, j: nat)
    requires i <= j <= |s|
    requires forall k :: 0 <= k < |s| ==> s[k] >= 0
    ensures Sum(s[j..]) <= Sum(s[i..])
    decreases j - i
  {
    if i < j {
      assert s[i..][1..] == s[i + 1..];
      SumSuffixMonotone(s, i + 1, j);
    }
  }

  /** For fixed dice, keeping fewer never gives a larger total. */
  lemma FewerKeptNoLarger(rolls: seq<int>, size: int, k1: int, k2: int)
    requires InRange(rolls, 1, size)
    requires k1 <= k2
    ensures RollTotal(rolls, k1) <= RollTotal(rolls, k2)
  {
    var s := Sorted(rolls);
    SortedInRange(rolls, 1, size);
    SumSuffixMonotone(s, DropCount(|rolls|, k2), DropCount(|rolls|, k1));
  }
}
