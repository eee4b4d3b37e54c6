/** Concrete evaluations of a few passwords, worked out from the model. */
module Scenarios {
  import opened CharClasses
  import opened Scoring
  import opened CommonPasswords
  import opened CrackTime
  import opened Checker

  /** The numbers of combinations of the examples below. */
  lemma Powers()
    ensures Pow(10, 4) == 10000
    ensures Pow(26, 12) == 95428956661682176
    ensures Pow(89, 11) == 2775173073766990340489
  {
  }

  /** The classifier on "password". */
  lemma PasswordCriteria(p: string)
    requires p == "password"
    ensures Tests(p) == Criteria(true, false, false, false)
  {
    assert IsLower(p[0]);
    assert forall i :: 0 <= i < |p| ==> IsLower(p[i]) && p[i] !in ClassifierSymbols;
  }

  /** The view of a non-empty password that is not in the (empty) list, from
      its score, its estimate and the unit that estimate falls in. */
  lemma UncommonView(p: string, prevColour: string, score: nat, s: nat, i: nat)
    requires p != [] && Score(Tests(p), |p|) == score && Scaled(p, Tests(p)) == s
    requires i < |TimeUnits| && TimeUnits[i].value >= 1 && FirstMet(TimeUnits, s, 0) == Some(i)
    ensures Evaluate(p, [], prevColour)
            == View(Category(score), Colour(score), InUnit(s, TimeUnits[i]), |p|, Tests(p))
  {
    assert !IsCommonPassword(p, []);
    UncommonPasswordIsScored(p, [], prevColour);
  }

  /** Ten seconds is shown in the "seconds" row, the last of the table. */
  lemma TenSecondsRow(s: nat)
    requires s == RepeatCapSeconds * GuessesPerSecond
    ensures FirstMet(TimeUnits, s, 0) == Some(8)
    ensures InUnit(s, TimeUnits[8]) == Duration(10.0, "seconds")
  {
    assert forall j :: 0 <= j < 8 ==> TimeUnits[j].value >= 60;
    assert forall j :: 0 <= j < 8 ==> !Meets(TimeUnits[j], s);
    assert Meets(TimeUnits[8], s);
  }

  /** 89^11 / 1e9 seconds is shown in the "thousand years" row. */
  lemma TroubadorRow(s: nat)
    requires s == 2775173073766990340489
    ensures FirstMet(TimeUnits, s, 0) == Some(3)
  {
    assert !Meets(TimeUnits[0], s) && !Meets(TimeUnits[1], s) && !Meets(TimeUnits[2], s);
    assert Meets(TimeUnits[3], s);
  }

  /** "password": only lower case, score 1 + 1 = 2, so "Weak" and red; and
      once it is in the common list, the common-password result instead. */
  lemma PasswordIsWeak(p: string, prevColour: string)
    requires p == "password"
    ensures Evaluate(p, [], prevColour).strength == "Weak"
    ensures Evaluate(p, [], prevColour).stColor == "red"
    ensures Evaluate(p, ["123456", "password"], prevColour)
            == View(CommonStrength, "red", Instantly, 8, Criteria(true, false, false, false))
  {
    PasswordCriteria(p);
    var c := Tests(p);
    assert Score(c, |p|) == 2 by {
      ScoreIsClassesPlusLengthBonus(c, |p|);
    }
    assert !IsCommonPassword(p, []);
    assert IsCommonPassword(p, ["123456", "password"]) by {
      assert forall i :: 0 <= i < |p| ==> !IsUpper(p[i]);
      ToLowerCaseFixes(p);
      assert ToLowerCase(p) in ["123456", "password"];
    }
    CommonPasswordOverrides(p, ["123456", "password"], prevColour);
  }

  /** The classifier on "1234". */
  lemma DigitsCriteria(p: string)
    requires p == "1234"
    ensures Tests(p) == Criteria(false, false, true, false)
  {
    assert IsDigit(p[0]);
    assert forall i :: 0 <= i < |p| ==> IsDigit(p[i]) && p[i] !in ClassifierSymbols;
  }

  /** "1234": only digits, a pool of 10 and 10^4 combinations, far under one
      second, so "Instantly". */
  lemma DigitsOnlyAreInstant(p: string, prevColour: string)
    requires p == "1234"
    ensures Evaluate(p, [], prevColour).strength == "Weak"
    ensures Evaluate(p, [], prevColour).timeToCrack == Instantly
  {
    DigitsCriteria(p);
    var c := Tests(p);
    assert Score(c, |p|) == 1 by {
      ScoreIsClassesPlusLengthBonus(c, |p|);
    }
    assert Scaled(p, c) < GuessesPerSecond by {
      assert PoolSize(c) == 10;
      Powers();
    }
    InstantlyIffUnderOneSecond(p, c);
  }

  /** The classifier and the repetition test on "aaaaaaaaaaaa". */
  lemma RepeatedLettersCriteria(p: string)
    requires p == "aaaaaaaaaaaa"
    ensures Tests(p) == Criteria(true, false, false, false)
    ensures HasRepeatRun(p)
  {
    assert IsLower(p[0]);
    assert forall i :: 0 <= i < |p| ==> p[i] == 'a';
    assert 'a' !in ClassifierSymbols;
    assert RunAt(p, 0);
  }

  /** "aaaaaaaaaaaa": score 1 + 2 = 3, "Medium"; 26^12 combinations would be
      about three years, but the run of equal letters caps it at ten seconds. */
  lemma RepeatedLettersAreCapped(p: string, prevColour: string)
    requires p == "aaaaaaaaaaaa"
    ensures Evaluate(p, [], prevColour).strength == "Medium"
    ensures Evaluate(p, [], prevColour).timeToCrack == Duration(10.0, "seconds")
  {
    RepeatedLettersCriteria(p);
    var c := Tests(p);
    assert Score(c, |p|) == 3 by {
      ScoreIsClassesPlusLengthBonus(c, |p|);
    }
    var s := Scaled(p, c);
    assert s == 10 * GuessesPerSecond by {
      assert PoolSize(c) == 26;
      Powers();
    }
    TenSecondsRow(s);
    TimeUnitsPositive();
    UncommonView(p, prevColour, 3, s, 8);
  }

  /** The classifier and the repetition test on "Tr0ub4dor&3". */
  lemma TroubadorCriteria(p: string)
    requires p == "Tr0ub4dor&3"
    ensures Tests(p) == Criteria(true, true, true, true)
    ensures !HasRepeatRun(p)
  {
    assert IsUpper(p[0]) && IsLower(p[1]) && IsDigit(p[2]) && p[9] in ClassifierSymbols;
    assert forall i: nat :: i + 2 < |p| ==> !RunAt(p, i);
  }

  /** "Tr0ub4dor&3": all four classes and 11 characters, score 4 + 1 = 5,
      "Strong"; 89^11 / 1e9 seconds is about 2.8e12 s, shown as about
      880 "thousand years" since that threshold is a hundred years. */
  lemma TroubadorIsStrong(p: string, prevColour: string)
    requires p == "Tr0ub4dor&3"
    ensures Evaluate(p, [], prevColour).strength == "Strong"
    ensures Evaluate(p, [], prevColour).stColor == "lightgreen"
    ensures Evaluate(p, [], prevColour).timeToCrack.Duration?
    ensures Evaluate(p, [], prevColour).timeToCrack.unitName == "thousand years"
  {
    TroubadorCriteria(p);
    var c := Tests(p);
    assert Score(c, |p|) == 5 by {
      ScoreIsClassesPlusLengthBonus(c, |p|);
    }
    var s := Scaled(p, c);
    assert s == 2775173073766990340489 by {
      assert PoolSize(c) == 89;
      Powers();
    }
    TroubadorRow(s);
    TimeUnitsPositive();
    UncommonView(p, prevColour, 5, s, 3);
  }
}
