/** The character alphabets of the password checker and its character-class
    classifier: the four regular-expression tests that decide which criteria a
    password meets.  Passwords are sequences of characters, one per code unit. */
module CharClasses {

  /** The four alphabets the generator draws from and the pool-size sum counts. */
  const UpperCase: string := "ABCDEFGHIJKLMNOPQRSTUVWXYZ"
  const LowerCase: string := "abcdefghijklmnopqrstuvwxyz"
  const Numbers: string := "0123456789"
  /** 27 symbols; note that it is NOT the symbol class of the classifier. */
  const Symbols: string := "!@#$%^&*()_+-=[]{}|;':,.<>?"
  const AllCharacters: string := UpperCase + LowerCase + Numbers + Symbols

  /** The 20 characters of the classifier's symbol test `[!@#$%^&*(),.?":{}|<>]`. */
  const ClassifierSymbols: string := "!@#$%^&*(),.?\":{}|<>"

  predicate IsLower(c: char) { 'a' <= c <= 'z' }
  predicate IsUpper(c: char) { 'A' <= c <= 'Z' }
  /** `\d` without the unicode flag: ASCII digits only. */
  predicate IsDigit(c: char) { '0' <= c <= '9' }
  predicate IsClassifierSymbol(c: char) { c in ClassifierSymbols }

  /** What `RegExp.test` answers for a pattern that is one character class:
      whether some character of `s` is in the class. */
  function Matches(s: string, inClass: char -> bool): (r: bool)
    ensures r <==> exists i :: 0 <= i < |s| && inClass(s[i])
  {
    if s == [] then false
    else if inClass(s[0]) then true
    else
      var r := Matches(s[1..], inClass);
      assert forall i :: 0 <= i < |s| - 1 ==> s[1..][i] == s[i + 1];
      r
  }

  /** The `criteria` slot: which of the four classes the password contains. */
  datatype Criteria = Criteria(lowercase: bool, uppercase: bool, digit: bool, symbol: bool)

  const NoCriteria: Criteria := Criteria(false, false, false, false)

  /** The `tests` object of calculateStrength: each flag holds exactly when some
      character of the password lies in that flag's set. */
  function Tests(pwd: string): (c: Criteria)
    ensures c.lowercase <==> exists i :: 0 <= i < |pwd| && IsLower(pwd[i])
    ensures c.uppercase <==> exists i :: 0 <= i < |pwd| && IsUpper(pwd[i])
    ensures c.digit <==> exists i :: 0 <= i < |pwd| && IsDigit(pwd[i])
    ensures c.symbol <==> exists i :: 0 <= i < |pwd| && pwd[i] in ClassifierSymbols
  {
    Criteria(Matches(pwd, IsLower), Matches(pwd, IsUpper), Matches(pwd, IsDigit),
             Matches(pwd, IsClassifierSymbol))
  }

  /** The empty password meets no criterion. */
  lemma EmptyMeetsNothing()
    ensures Tests([]) == NoCriteria
  {
  }

  /** Every generator alphabet lies in the class its classifier test checks,
      except for the symbols. */
  lemma AlphabetsMatchClasses()
    ensures forall i :: 0 <= i < |UpperCase| ==> IsUpper(UpperCase[i])
    ensures forall i :: 0 <= i < |LowerCase| ==> IsLower(LowerCase[i])
    ensures forall i :: 0 <= i < |Numbers| ==> IsDigit(Numbers[i])
  {
  }

  /** The characters of `Symbols` that the classifier does not count. */
  const UncountedSymbols: string := "_+-=[];'"

  /** The classifier's symbol set and the generator's symbol alphabet differ:
      `"` is only in the first and `_+-=[];'` are only in the second. */
  lemma SymbolSetsDiffer()
    ensures |ClassifierSymbols| == 20 && |Symbols| == 27
    ensures '"' in ClassifierSymbols && '"' !in Symbols
    ensures forall i :: 0 <= i < |UncountedSymbols| ==>
              UncountedSymbols[i] in Symbols && UncountedSymbols[i] !in ClassifierSymbols
  {
  }
}
