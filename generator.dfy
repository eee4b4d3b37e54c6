/** The password generator.  The random draws `Math.floor(Math.random() * n)`
    are replaced by indices the caller supplies, each below the length of the
    alphabet it indexes. */
module Generator {
  import opened CharClasses
  import opened Scoring

  /** The length the padding loop fills the password up to. */
  const GeneratedLength: nat := 12

  /** The draws of one call: one index per class alphabet, then the padding
      indices into AllCharacters, used in order. */
  datatype Picks = Picks(upper: nat, lower: nat, digit: nat, symbol: nat, padding: seq<nat>)

  /** Every draw lies in range, and there are enough padding draws for the loop. */
  predicate ValidPicks(r: Picks)
  {
    && r.upper < |UpperCase| && r.lower < |LowerCase|
    && r.digit < |Numbers| && r.symbol < |Symbols|
    && |r.padding| >= GeneratedLength - 4
    && forall k :: 0 <= k < |r.padding| ==> r.padding[k] < |AllCharacters|
  }

  /** The shape of every generated password: 12 characters, the first four from
      `UpperCase`, `LowerCase`, `Numbers` and `Symbols`, the rest from `AllCharacters`. */
  predicate IsGenerated(p: string)
  {
    && |p| == GeneratedLength
    && p[0] in UpperCase && p[1] in LowerCase && p[2] in Numbers && p[3] in Symbols
    && forall j :: 4 <= j < |p| ==> p[j] in AllCharacters
  }

  /** The `newPassword` that generatePassword builds from the draws `r`. */
  method BuildPassword(r: Picks) returns (p: string)
    requires ValidPicks(r)
    ensures |p| == GeneratedLength
    ensures p[0] == UpperCase[r.upper] && p[1] == LowerCase[r.lower]
    ensures p[2] == Numbers[r.digit] && p[3] == Symbols[r.symbol]
    ensures forall j :: 4 <= j < |p| ==> p[j] == AllCharacters[r.padding[j - 4]]
    ensures IsGenerated(p)
  {
    p := [UpperCase[r.upper], LowerCase[r.lower], Numbers[r.digit], Symbols[r.symbol]];
    while |p| < GeneratedLength
      invariant 4 <= |p| <= GeneratedLength
      invariant p[0] == UpperCase[r.upper] && p[1] == LowerCase[r.lower]
      invariant p[2] == Numbers[r.digit] && p[3] == Symbols[r.symbol]
      invariant forall j :: 4 <= j < |p| ==> p[j] == AllCharacters[r.padding[j - 4]]
    {
      p := p + [AllCharacters[r.padding[|p| - 4]]];
    }
  }

  /** A generated password always has an upper-case letter, a lower-case letter
      and a digit, and is 12 long, so it scores at least 5: "Strong". */
  lemma GeneratedScoresStrong(p: string)
    requires IsGenerated(p)
    ensures Tests(p).uppercase && Tests(p).lowercase && Tests(p).digit
    ensures Score(Tests(p), |p|) >= 5
    ensures Category(Score(Tests(p), |p|)) == "Strong"
    ensures Colour(Score(Tests(p), |p|)) == "lightgreen"
  {
    AlphabetsMatchClasses();
    assert IsUpper(p[0]) && IsLower(p[1]) && IsDigit(p[2]);
    ScoreIsClassesPlusLengthBonus(Tests(p), |p|);
  }

  /** A password the generator can produce from the draws 0, 0, 0, 10 and
      eight times 0: its symbol is `_`, which the classifier does not count. */
  const Underscored: string := "Aa0_AAAAAAAA"

  lemma UnderscoredIsGenerated()
    ensures IsGenerated(Underscored)
  {
    var p := Underscored;
    assert p[0] == UpperCase[0] && p[1] == LowerCase[0] && p[2] == Numbers[0];
    assert p[3] == Symbols[10];
    assert 'A' in AllCharacters by { assert AllCharacters[0] == 'A'; }
    assert forall j :: 4 <= j < |p| ==> p[j] == 'A';
  }

  /** The draws 0, 0, 0 and 10, then eight times 0. */
  const UnderscoredDraws: Picks := Picks(0, 0, 0, 10, [0, 0, 0, 0, 0, 0, 0, 0])

  /** Whatever BuildPassword returns for those draws is "Aa0_AAAAAAAA". */
  lemma UnderscoredFromDraws(p: string)
    requires |p| == GeneratedLength
    requires p[0] == UpperCase[UnderscoredDraws.upper] && p[1] == LowerCase[UnderscoredDraws.lower]
    requires p[2] == Numbers[UnderscoredDraws.digit] && p[3] == Symbols[UnderscoredDraws.symbol]
    requires forall j :: 4 <= j < |p| ==> p[j] == AllCharacters[UnderscoredDraws.padding[j - 4]]
    ensures ValidPicks(UnderscoredDraws)
    ensures p == Underscored
  {
    assert forall j :: 4 <= j < |p| ==> p[j] == AllCharacters[0];
    assert forall j :: 0 <= j < |p| ==> p[j] == Underscored[j];
  }

  /** So the symbol flag is not guaranteed for a generated password. */
  lemma UnderscoredLacksSymbol()
    ensures !Tests(Underscored).symbol
  {
    var p := Underscored;
    assert 'A' !in ClassifierSymbols && 'a' !in ClassifierSymbols;
    assert '0' !in ClassifierSymbols && '_' !in ClassifierSymbols;
    assert forall j :: 0 <= j < |p| ==> p[j] == 'A' || p[j] == 'a' || p[j] == '0' || p[j] == '_';
  }
}
