/** The password-checker component: its six state slots and the handlers that
    write them.  Each React setter is an immediate write of its field. */
module Checker {
  import opened CharClasses
  import opened Scoring
  import opened CommonPasswords
  import opened CrackTime
  import opened Generator

  /** The strength shown for a password found in the common list. */
  const CommonStrength: string := "Weak (Common Password)"

  /** The five slots that calculateStrength derives from a password
      (everything but `password` itself). */
  datatype View = View(strength: string, stColor: string, timeToCrack: CrackTime,
                       passLength: nat, criteria: Criteria)

  /** The slots after calculateStrength(pwd), from a state whose colour was
      `prevColour` (resetState leaves the colour alone).  Length and criteria
      always describe `pwd`; the strength and the time are blank exactly for
      the empty password, which alone keeps the previous colour. */
  function Evaluate(pwd: string, commonPasswords: seq<string>, prevColour: string): (v: View)
    ensures v.passLength == |pwd| && v.criteria == Tests(pwd)
    ensures v.strength == "" <==> pwd == []
    ensures v.timeToCrack == ZeroSeconds <==> pwd == []
    ensures pwd == [] ==> v.stColor == prevColour
    ensures pwd != [] ==> v.stColor in {"red", "orange", "lightgreen"}
  {
    if pwd == [] then View("", prevColour, ZeroSeconds, 0, NoCriteria)
    else
      var tests := Tests(pwd);
      var score := Score(tests, |pwd|);
      if IsCommonPassword(pwd, commonPasswords) then View(CommonStrength, "red", Instantly, |pwd|, tests)
      else View(Category(score), Colour(score), EstimateCrackTime(pwd, tests), |pwd|, tests)
  }

  /** The empty password resets strength, criteria, time and length, and keeps the colour. */
  lemma EmptyPasswordResets(commonPasswords: seq<string>, prevColour: string)
    ensures Evaluate([], commonPasswords, prevColour)
            == View("", prevColour, ZeroSeconds, 0, NoCriteria)
  {
  }

  /** A common password is "Weak (Common Password)", red and "Instantly", whatever
      its score; its criteria and length are still recorded. */
  lemma CommonPasswordOverrides(pwd: string, commonPasswords: seq<string>, prevColour: string)
    requires pwd != [] && IsCommonPassword(pwd, commonPasswords)
    ensures Evaluate(pwd, commonPasswords, prevColour)
            == View(CommonStrength, "red", Instantly, |pwd|, Tests(pwd))
  {
  }

  /** A non-empty password that is not in the list gets the strength and colour
      of its score and the estimate for its classes, and records its criteria
      and length. */
  lemma UncommonPasswordIsScored(pwd: string, commonPasswords: seq<string>, prevColour: string)
    requires pwd != [] && !IsCommonPassword(pwd, commonPasswords)
    ensures var tests := Tests(pwd);
            var score := Score(tests, |pwd|);
            Evaluate(pwd, commonPasswords, prevColour)
            == View(Category(score), Colour(score), EstimateCrackTime(pwd, tests), |pwd|, tests)
  {
  }

  /** A non-empty password always overwrites the colour, so nothing of the
      previous state shows through. */
  lemma NonEmptyIgnoresPreviousColour(pwd: string, commonPasswords: seq<string>, c1: string, c2: string)
    requires pwd != []
    ensures Evaluate(pwd, commonPasswords, c1) == Evaluate(pwd, commonPasswords, c2)
  {
  }

  /** For a non-empty password the strength label and the colour agree: the two
      weak labels are red, "Medium" orange and "Strong" light green, and no
      other label occurs. */
  lemma StrengthAndColourAgree(pwd: string, commonPasswords: seq<string>, prevColour: string)
    requires pwd != []
    ensures var v := Evaluate(pwd, commonPasswords, prevColour);
            && (v.strength == "Weak" || v.strength == CommonStrength <==> v.stColor == "red")
            && (v.strength == "Medium" <==> v.stColor == "orange")
            && (v.strength == "Strong" <==> v.stColor == "lightgreen")
            && v.strength in {"Weak", "Medium", "Strong", CommonStrength}
  {
    var tests := Tests(pwd);
    CategoryAndColourAgree(Score(tests, |pwd|));
  }

  /** The time shown is "Instantly" exactly when the password is common or its
      estimate is under one second. */
  lemma InstantlyExactlyWhen(pwd: string, commonPasswords: seq<string>, prevColour: string)
    ensures Evaluate(pwd, commonPasswords, prevColour).timeToCrack == Instantly
            <==> pwd != [] && (IsCommonPassword(pwd, commonPasswords)
                               || Scaled(pwd, Tests(pwd)) < GuessesPerSecond)
  {
    if pwd != [] {
      InstantlyIffUnderOneSecond(pwd, Tests(pwd));
    }
  }

  /** A password with 3 or more equal characters in a row is shown as cracked
      instantly or within at most 10 seconds. */
  lemma RepeatedPasswordIsFast(pwd: string, commonPasswords: seq<string>, prevColour: string)
    requires HasRepeatRun(pwd)
    ensures var t := Evaluate(pwd, commonPasswords, prevColour).timeToCrack;
            t == Instantly || (t.Duration? && t.unitName == "seconds" && t.amount <= 10.0)
  {
    assert pwd != [];
    RepeatRunIsSeconds(pwd, Tests(pwd));
  }

  /** A generated password that is not in the common list is shown as "Strong". */
  lemma GeneratedIsStrongUnlessCommon(p: string, commonPasswords: seq<string>, prevColour: string)
    requires IsGenerated(p) && !IsCommonPassword(p, commonPasswords)
    ensures Evaluate(p, commonPasswords, prevColour).strength == "Strong"
    ensures Evaluate(p, commonPasswords, prevColour).stColor == "lightgreen"
  {
    GeneratedScoresStrong(p);
  }

  /** The component's state.  `showPassword` is presentation only and left out;
      the common-password list is fixed when the component is created. */
  class PasswordChecker {
    var password: string
    var strength: string
    var stColor: string
    var timeToCrack: CrackTime
    var passLength: nat
    var criteria: Criteria
    const commonPasswords: seq<string>

    /** The five derived slots. */
    function Slots(): (v: View)
      reads this
    {
      View(strength, stColor, timeToCrack, passLength, criteria)
    }

    /** The initial `useState` values. */
    constructor (commonPasswords: seq<string>)
      ensures this.commonPasswords == commonPasswords
      ensures password == "" && Slots() == View("", "", ZeroSeconds, 0, NoCriteria)
    {
      this.commonPasswords := commonPasswords;
      password, strength, stColor := "", "", "";
      timeToCrack, passLength, criteria := ZeroSeconds, 0, NoCriteria;
    }

    /** resetState: four of the slots go back to their initial values; the
        colour and the password are not touched. */
    method ResetState()
      modifies this`strength, this`criteria, this`timeToCrack, this`passLength
      ensures Slots() == View("", old(stColor), ZeroSeconds, 0, NoCriteria)
    {
      strength := "";
      criteria := NoCriteria;
      timeToCrack := ZeroSeconds;
      passLength := 0;
    }

    /** calculateTimeToCrack: only the time slot changes. */
    method CalculateTimeToCrack(pwd: string, charPools: Criteria)
      modifies this`timeToCrack
      ensures timeToCrack == EstimateCrackTime(pwd, charPools)
    {
      var characterSetSize := PoolSize(charPools);
      // `seconds`, kept multiplied by GuessesPerSecond so that it stays exact
      var scaled := Pow(characterSetSize, |pwd|);
      if HasRepeatRun(pwd) {
        scaled := Min(scaled, RepeatCapSeconds * GuessesPerSecond);
      }
      var displayTime := FirstMet(TimeUnits, scaled, 0);
      if displayTime.None? {
        timeToCrack := Instantly;
      } else {
        var u := TimeUnits[displayTime.value];
        timeToCrack := Duration(scaled as real / (u.value * GuessesPerSecond) as real, u.name);
      }
    }

    /** calculateStrength: the derived slots become those of `pwd`; the password
        slot is not touched. */
    method CalculateStrength(pwd: string)
      modifies this`strength, this`stColor, this`timeToCrack, this`passLength, this`criteria
      ensures Slots() == Evaluate(pwd, commonPasswords, old(stColor))
    {
      if pwd == [] {
        ResetState();
        EmptyPasswordResets(commonPasswords, old(stColor));
        return;
      }
      var tests := Tests(pwd);
      criteria := tests;
      passLength := |pwd|;
      var score := Score(tests, |pwd|);
      if IsCommonPassword(pwd, commonPasswords) {
        strength := CommonStrength;
        stColor := "red";
        timeToCrack := Instantly;
        CommonPasswordOverrides(pwd, commonPasswords, old(stColor));
        return;
      }
      strength := Category(score);
      stColor := Colour(score);
      CalculateTimeToCrack(pwd, tests);
      UncommonPasswordIsScored(pwd, commonPasswords, old(stColor));
    }

    /** handleChange: store the typed password, then evaluate it. */
    method HandleChange(pwd: string)
      modifies this
      ensures password == pwd
      ensures Slots() == Evaluate(pwd, commonPasswords, old(stColor))
    {
      password := pwd;
      CalculateStrength(pwd);
    }

    /** generatePassword: build a password from the draws `r`, store it, then
        evaluate it, so the slots always describe the generated password. */
    method GeneratePassword(r: Picks)
      requires ValidPicks(r)
      modifies this
      ensures IsGenerated(password)
      ensures password[0] == UpperCase[r.upper] && password[1] == LowerCase[r.lower]
      ensures password[2] == Numbers[r.digit] && password[3] == Symbols[r.symbol]
      ensures forall j :: 4 <= j < |password| ==> password[j] == AllCharacters[r.padding[j - 4]]
      ensures Slots() == Evaluate(password, commonPasswords, old(stColor))
    {
      var newPassword := BuildPassword(r);
      password := newPassword;
      CalculateStrength(newPassword);
    }
  }
}
