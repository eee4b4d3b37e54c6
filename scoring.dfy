/** The strength scorer: the score of a password (classes present plus length
    bonuses) and its mapping to a strength label and a display colour. */
module Scoring {
  import opened CharClasses

  /** JavaScript's coercion of a boolean to a number in `+`. */
  function Bit(b: bool): (n: nat) { if b then 1 else 0 }

  /** `Object.values(tests)`, in the order the four keys were written. */
  function Flags(c: Criteria): (fs: seq<bool>) { [c.lowercase, c.uppercase, c.digit, c.symbol] }

  /** `filter(Boolean).length`: how many entries are true. */
  function CountTrue(bs: seq<bool>): (n: nat)
    ensures n <= |bs|
    ensures n == 0 <==> forall i :: 0 <= i < |bs| ==> !bs[i]
    ensures n == |bs| <==> forall i :: 0 <= i < |bs| ==> bs[i]
  {
    if bs == [] then 0
    else
      var n := CountTrue(bs[1..]);
      assert forall i :: 0 <= i < |bs| - 1 ==> bs[1..][i] == bs[i + 1];
      Bit(bs[0]) + n
  }

  /** `filter(Boolean).length` is exactly the number of true entries. */
  lemma {:induction false} CountTrueIsNumberTrue(bs: seq<bool>)
    ensures CountTrue(bs) == multiset(bs)[true]
  {
    if bs != [] {
      CountTrueIsNumberTrue(bs[1..]);
      assert bs == [bs[0]] + bs[1..];
    }
  }

  /** The score of a password whose tests gave `c` and whose length is `len`. */
  function Score(c: Criteria, len: nat): (s: nat)
    ensures s <= 7
  {
    CountTrue(Flags(c)) + Bit(len >= 8) + Bit(len >= 12) + Bit(len >= 16)
  }

  /** The score is one point per class present plus one per length threshold met. */
  lemma ScoreIsClassesPlusLengthBonus(c: Criteria, len: nat)
    ensures Score(c, len) == Bit(c.lowercase) + Bit(c.uppercase) + Bit(c.digit) + Bit(c.symbol)
                             + Bit(len >= 8) + Bit(len >= 12) + Bit(len >= 16)
  {
    var f := Flags(c);
    calc {
      CountTrue(f);
      Bit(c.lowercase) + CountTrue([c.uppercase, c.digit, c.symbol]);
      Bit(c.lowercase) + Bit(c.uppercase) + CountTrue([c.digit, c.symbol]);
      Bit(c.lowercase) + Bit(c.uppercase) + Bit(c.digit) + CountTrue([c.symbol]);
      Bit(c.lowercase) + Bit(c.uppercase) + Bit(c.digit) + Bit(c.symbol) + CountTrue([]);
    }
  }

  /** With the classes fixed, a longer password never scores less. */
  lemma ScoreMonotoneInLength(c: Criteria, m: nat, n: nat)
    requires m <= n
    ensures Score(c, m) <= Score(c, n)
  {
  }

  /** Pointwise more true entries never count fewer. */
  lemma {:induction false} CountTrueMonotone(a: seq<bool>, b: seq<bool>)
    requires |a| == |b|
    requires forall i :: 0 <= i < |a| && a[i] ==> b[i]
    ensures CountTrue(a) <= CountTrue(b)
  {
    if a != [] {
      assert forall i :: 0 <= i < |a| - 1 ==> a[1..][i] == a[i + 1] && b[1..][i] == b[i + 1];
      CountTrueMonotone(a[1..], b[1..]);
    }
  }

  /** Criteria `d` has every class that `c` has. */
  predicate Covers(d: Criteria, c: Criteria)
  {
    (c.lowercase ==> d.lowercase) && (c.uppercase ==> d.uppercase)
    && (c.digit ==> d.digit) && (c.symbol ==> d.symbol)
  }

  /** With the length fixed, more classes never score less. */
  lemma ScoreMonotoneInClasses(c: Criteria, d: Criteria, len: nat)
    requires Covers(d, c)
    ensures Score(c, len) <= Score(d, len)
  {
    CountTrueMonotone(Flags(c), Flags(d));
  }

  /** The strength label of a password that is not common. */
  function Category(score: int): (name: string)
    ensures name == "Weak" <==> score <= 2
    ensures name == "Medium" <==> 3 <= score <= 4
    ensures name == "Strong" <==> 5 <= score
  {
    if score <= 2 then "Weak" else if score <= 4 then "Medium" else "Strong"
  }

  /** The colour shown with the strength of a password that is not common. */
  function Colour(score: int): (colour: string)
    ensures colour == "red" <==> score <= 2
    ensures colour == "orange" <==> 3 <= score <= 4
    ensures colour == "lightgreen" <==> 5 <= score
  {
    if score <= 2 then "red" else if score <= 4 then "orange" else "lightgreen"
  }

  /** Label and colour always agree with each other. */
  lemma CategoryAndColourAgree(score: int)
    ensures Category(score) == "Weak" <==> Colour(score) == "red"
    ensures Category(score) == "Medium" <==> Colour(score) == "orange"
    ensures Category(score) == "Strong" <==> Colour(score) == "lightgreen"
  {
  }

  /** Length bonuses give at most three points, so a password shorter than 8
      characters is never "Strong", and a "Strong" one has at least two classes. */
  lemma StrongNeedsLengthAndClasses(c: Criteria, len: nat)
    requires Category(Score(c, len)) == "Strong"
    ensures len >= 8
    ensures CountTrue(Flags(c)) >= 2
  {
    assert CountTrue(Flags(c)) <= 4;
  }
}
