/** The common-password test: a case-insensitive exact match of the password
    against a list of known passwords.  Lower-casing is modelled on ASCII. */
module CommonPasswords {
  import opened CharClasses

  /** ASCII lower-casing of one character. */
  function LowerChar(c: char): (d: char)
    ensures IsUpper(c) ==> d as int == c as int + 32 && IsLower(d)
    ensures !IsUpper(c) ==> d == c
  {
    if IsUpper(c) then (c as int + 32) as char else c
  }

  /** `String.prototype.toLowerCase`, restricted to ASCII letters. */
  function ToLowerCase(s: string): (r: string)
    ensures |r| == |s|
    ensures forall i :: 0 <= i < |s| ==> r[i] == LowerChar(s[i])
  {
    if s == [] then [] else [LowerChar(s[0])] + ToLowerCase(s[1..])
  }

  /** `isCommonPassword`: some entry of the list has the password's length and,
      at every position, the lower-cased character of the password. */
  function IsCommonPassword(pwd: string, commonPasswords: seq<string>): (r: bool)
    ensures r <==> exists k :: 0 <= k < |commonPasswords| && |commonPasswords[k]| == |pwd|
                              && forall i :: 0 <= i < |pwd| ==> commonPasswords[k][i] == LowerChar(pwd[i])
  {
    var lowered := ToLowerCase(pwd);
    if lowered in commonPasswords then
      var k :| 0 <= k < |commonPasswords| && commonPasswords[k] == lowered;
      assert |commonPasswords[k]| == |pwd|;
      true
    else
      assert forall k :: 0 <= k < |commonPasswords| && |commonPasswords[k]| == |pwd|
                         && (forall i :: 0 <= i < |pwd| ==> commonPasswords[k][i] == LowerChar(pwd[i]))
                         ==> commonPasswords[k] == lowered;
      false
  }

  /** A string without upper-case letters is its own lower-cased form. */
  lemma ToLowerCaseFixes(s: string)
    requires forall i :: 0 <= i < |s| ==> !IsUpper(s[i])
    ensures ToLowerCase(s) == s
  {
  }

  /** Lower-casing twice is lower-casing once. */
  lemma ToLowerCaseIdempotent(s: string)
    ensures ToLowerCase(ToLowerCase(s)) == ToLowerCase(s)
  {
    var t := ToLowerCase(s);
    assert forall i :: 0 <= i < |s| ==> !IsUpper(t[i]);
    ToLowerCaseFixes(t);
  }

  /** The test ignores case: two passwords that lower-case alike are both
      common or both not; in particular a password and its lower-cased form. */
  lemma CommonIgnoresCase(p: string, q: string, commonPasswords: seq<string>)
    requires ToLowerCase(p) == ToLowerCase(q)
    ensures IsCommonPassword(p, commonPasswords) == IsCommonPassword(q, commonPasswords)
    ensures IsCommonPassword(ToLowerCase(p), commonPasswords) == IsCommonPassword(p, commonPasswords)
  {
    ToLowerCaseIdempotent(p);
  }

  /** A list entry that contains an upper-case letter never matches anything. */
  lemma UpperCaseEntryNeverMatches(pwd: string, entry: string)
    requires exists i :: 0 <= i < |entry| && IsUpper(entry[i])
    ensures !IsCommonPassword(pwd, [entry])
  {
    var t := ToLowerCase(pwd);
    assert forall i :: 0 <= i < |t| ==> !IsUpper(t[i]);
  }
}
