/** The crack-time estimator: the size of the character pool, the number of
    combinations, the repetition penalty and the choice of display unit.

    The source computes `seconds = pool^len / 1e9` in floating point.  Here all
    of it is exact: the model keeps `Scaled = seconds * GuessesPerSecond` as a
    natural number, so `seconds >= v` becomes `Scaled >= v * GuessesPerSecond`
    and the cap `min(seconds, 10)` becomes `min(Scaled, 10 * GuessesPerSecond)`. */
module CrackTime {
  import opened CharClasses

  datatype Option<T> = None | Some(value: T)

  const GuessesPerSecond: nat := 1_000_000_000
  /** Seconds to which a password with a repeated-character run is capped. */
  const RepeatCapSeconds: nat := 10

  /** `characterSetSize`, summed over the active classes.  The symbol part counts
      the 27-character `Symbols`, not the classifier's 20-character set. */
  function PoolSize(pools: Criteria): (n: nat)
    ensures n <= 89
    ensures n == 0 <==> pools == NoCriteria
  {
    (if pools.lowercase then |LowerCase| else 0)
    + (if pools.uppercase then |UpperCase| else 0)
    + (if pools.digit then |Numbers| else 0)
    + (if pools.symbol then |Symbols| else 0)
  }

  /** The contributions of the four classes are 26, 26, 10 and 27. */
  lemma PoolSizeSum(pools: Criteria)
    ensures PoolSize(pools) == (if pools.lowercase then 26 else 0) + (if pools.uppercase then 26 else 0)
                               + (if pools.digit then 10 else 0) + (if pools.symbol then 27 else 0)
  {
  }

  /** `Math.pow` on naturals, exactly. */
  function Pow(b: nat, e: nat): (r: nat)
  {
    if e == 0 then 1 else b * Pow(b, e - 1)
  }

  /** A longer password over a non-empty pool has at least as many combinations. */
  lemma {:induction false} PowMonotone(b: nat, m: nat, n: nat)
    requires b >= 1 && m <= n
    ensures Pow(b, m) <= Pow(b, n)
  {
    if m < n {
      PowMonotone(b, m, n - 1);
      assert Pow(b, n - 1) <= b * Pow(b, n - 1);
    }
  }

  /** The characters the regular-expression `.` does not match. */
  predicate IsLineTerminator(c: char)
  {
    c == '\n' || c == '\r' || c == '\U{2028}' || c == '\U{2029}'
  }

  /** `(.)\1{2,}` matches at `i`: three equal characters there, none a line terminator. */
  predicate RunAt(s: string, i: nat)
    requires i + 2 < |s|
  {
    !IsLineTerminator(s[i]) && s[i + 1] == s[i] && s[i + 2] == s[i]
  }

  /** Whether `(.)\1{2,}` matches somewhere at or after position `k`. */
  function HasRunFrom(s: string, k: nat): (r: bool)
    decreases |s| - k
    ensures r <==> exists i: nat :: k <= i && i + 2 < |s| && RunAt(s, i)
  {
    if k + 2 >= |s| then false
    else RunAt(s, k) || HasRunFrom(s, k + 1)
  }

  /** `/(.)\1{2,}/.test(pwd)`: the password has 3 or more equal characters in a row. */
  function HasRepeatRun(s: string): (r: bool)
    ensures r <==> exists i: nat :: i + 2 < |s| && RunAt(s, i)
  {
    HasRunFrom(s, 0)
  }

  /** `Math.min` on naturals. */
  function Min(a: nat, b: nat): (r: nat)
    ensures r <= a && r <= b && (r == a || r == b)
  {
    if a <= b then a else b
  }

  /** The estimated seconds, times GuessesPerSecond, after the repetition penalty:
      never more than pool^len; without a run exactly that; with a run at most
      the ten-second cap and either the full figure or the cap itself. */
  function Scaled(pwd: string, pools: Criteria): (r: nat)
    ensures r <= Pow(PoolSize(pools), |pwd|)
    ensures !HasRepeatRun(pwd) ==> r == Pow(PoolSize(pools), |pwd|)
    ensures HasRepeatRun(pwd) ==> r <= RepeatCapSeconds * GuessesPerSecond
    ensures HasRepeatRun(pwd) ==> r == Pow(PoolSize(pools), |pwd|) || r == RepeatCapSeconds * GuessesPerSecond
  {
    var combinations := Pow(PoolSize(pools), |pwd|);
    if HasRepeatRun(pwd) then Min(combinations, RepeatCapSeconds * GuessesPerSecond)
    else combinations
  }

  /** A repeated run caps the estimate at 10 seconds and otherwise changes nothing;
      without one the estimate is pool^len / 1e9 seconds. */
  lemma RepeatPenalty(pwd: string, pools: Criteria)
    ensures Scaled(pwd, pools) <= Pow(PoolSize(pools), |pwd|)
    ensures HasRepeatRun(pwd) ==> Scaled(pwd, pools) <= RepeatCapSeconds * GuessesPerSecond
    ensures HasRepeatRun(pwd) ==>
              Scaled(pwd, pools) == Min(Pow(PoolSize(pools), |pwd|), RepeatCapSeconds * GuessesPerSecond)
    ensures !HasRepeatRun(pwd) ==> Scaled(pwd, pools) == Pow(PoolSize(pools), |pwd|)
    ensures HasRepeatRun(pwd) <==> exists i: nat :: i + 2 < |pwd| && RunAt(pwd, i)
  {
  }

  /** One row of the `timeUnits` table: a threshold in seconds and its label. */
  datatype TimeUnit = TimeUnit(value: nat, name: string)

  /** The table, largest first.  The four "years" multiples are ten times smaller
      than their labels say: "thousand years" is 3153600000 s, a hundred years. */
  const TimeUnits: seq<TimeUnit> := [
    TimeUnit(3153600000000000000, "trillion years"),
    TimeUnit(3153600000000000, "billion years"),
    TimeUnit(3153600000000, "million years"),
    TimeUnit(3153600000, "thousand years"),
    TimeUnit(31536000, "years"),
    TimeUnit(86400, "days"),
    TimeUnit(3600, "hours"),
    TimeUnit(60, "minutes"),
    TimeUnit(1, "seconds")
  ]

  /** `seconds >= unit.value`, for `seconds = scaled / GuessesPerSecond`. */
  predicate Meets(u: TimeUnit, scaled: nat)
  {
    scaled >= u.value * GuessesPerSecond
  }

  /** `timeUnits.find(...)` started at index `k`: the first row from `k` on
      whose threshold the estimate meets, or None. */
  function FirstMet(table: seq<TimeUnit>, scaled: nat, k: nat): (r: Option<nat>)
    requires k <= |table|
    decreases |table| - k
    ensures r.Some? ==> k <= r.value < |table| && Meets(table[r.value], scaled)
    ensures r.Some? ==> forall j :: k <= j < r.value ==> !Meets(table[j], scaled)
    ensures r.None? <==> forall j :: k <= j < |table| ==> !Meets(table[j], scaled)
  {
    if k == |table| then None
    else if Meets(table[k], scaled) then Some(k)
    else FirstMet(table, scaled, k + 1)
  }

  /** The `timeToCrack` slot: the initial "0 seconds", the "Instantly" sentinel,
      or an amount of a unit (the number shown with two decimals). */
  datatype CrackTime = ZeroSeconds | Instantly | Duration(amount: real, unitName: string)

  /** `seconds / unit.value` as an amount of `u`, for `seconds = scaled / GuessesPerSecond`:
      the amount, multiplied back by the unit's threshold, is the estimate. */
  function InUnit(scaled: nat, u: TimeUnit): (r: CrackTime)
    requires u.value >= 1
    ensures r.Duration? && r.unitName == u.name
    ensures r.amount * (u.value * GuessesPerSecond) as real == scaled as real
  {
    var d := (u.value * GuessesPerSecond) as real;
    DivideBack(scaled as real, d);
    Duration(scaled as real / d, u.name)
  }

  /** What calculateTimeToCrack stores for `pwd` with the class flags `pools`:
      never the initial "0 seconds"; a shown amount is the estimate expressed in
      one of the table's units (so, by InUnit, it multiplies back to the estimate). */
  function EstimateCrackTime(pwd: string, pools: Criteria): (r: CrackTime)
    ensures r != ZeroSeconds
    ensures r.Duration? ==>
              exists i :: 0 <= i < |TimeUnits| && TimeUnits[i].value >= 1
                          && r == InUnit(Scaled(pwd, pools), TimeUnits[i])
  {
    var scaled := Scaled(pwd, pools);
    match FirstMet(TimeUnits, scaled, 0)
    case None => Instantly
    case Some(i) =>
      TimeUnitsPositive();
      InUnit(scaled, TimeUnits[i])
  }

  /** Dividing by a positive amount and multiplying back gives the original. */
  lemma DivideBack(x: real, d: real)
    requires d > 0.0
    ensures (x / d) * d == x
  {
  }

  /** Dividing by a positive amount no larger than the dividend gives at least one. */
  lemma QuotientAtLeastOne(x: real, d: real)
    requires 0.0 < d <= x
    ensures x / d >= 1.0
  {
  }

  /** Every threshold is at least one second. */
  lemma TimeUnitsPositive()
    ensures forall i :: 0 <= i < |TimeUnits| ==> TimeUnits[i].value >= 1
  {
  }

  /** The thresholds strictly decrease and the last one is one second. */
  lemma TimeUnitsDescending()
    ensures forall i, j :: 0 <= i < j < |TimeUnits| ==> TimeUnits[j].value < TimeUnits[i].value
    ensures TimeUnits[|TimeUnits| - 1].value == 1
  {
  }

  /** The estimate is "Instantly" exactly when it is under one second. */
  lemma InstantlyIffUnderOneSecond(pwd: string, pools: Criteria)
    ensures EstimateCrackTime(pwd, pools) == Instantly <==> Scaled(pwd, pools) < GuessesPerSecond
  {
    var scaled := Scaled(pwd, pools);
    TimeUnitsDescending();
    if scaled >= GuessesPerSecond {
      assert Meets(TimeUnits[8], scaled);
    }
  }

  /** A displayed amount is of the largest unit whose threshold the estimate
      meets: at least one of it, and under one of every larger unit. */
  lemma ChosenUnitIsLargest(pwd: string, pools: Criteria) returns (i: nat)
    requires EstimateCrackTime(pwd, pools).Duration?
    ensures i < |TimeUnits| && EstimateCrackTime(pwd, pools).unitName == TimeUnits[i].name
    ensures TimeUnits[i].value * GuessesPerSecond <= Scaled(pwd, pools)
    ensures forall j :: 0 <= j < i ==> Scaled(pwd, pools) < TimeUnits[j].value * GuessesPerSecond
    ensures EstimateCrackTime(pwd, pools).amount >= 1.0
  {
    var scaled := Scaled(pwd, pools);
    i := FirstMet(TimeUnits, scaled, 0).value;
    var d := (TimeUnits[i].value * GuessesPerSecond) as real;
    assert TimeUnits[i].value >= 1 by { TimeUnitsPositive(); }
    assert EstimateCrackTime(pwd, pools) == InUnit(scaled, TimeUnits[i]);
    assert 0.0 < d <= scaled as real;
    QuotientAtLeastOne(scaled as real, d);
  }

  /** A password with 3 or more equal characters in a row is shown as taking at
      most 10 seconds: either "Instantly" or an amount of seconds of at most 10. */
  lemma RepeatRunIsSeconds(pwd: string, pools: Criteria)
    requires HasRepeatRun(pwd)
    ensures EstimateCrackTime(pwd, pools) == Instantly
            || (EstimateCrackTime(pwd, pools).Duration?
                && EstimateCrackTime(pwd, pools).unitName == "seconds"
                && EstimateCrackTime(pwd, pools).amount <= RepeatCapSeconds as real)
  {
    var scaled := Scaled(pwd, pools);
    RepeatPenalty(pwd, pools);
    assert forall j :: 0 <= j < 8 ==> !Meets(TimeUnits[j], scaled);
    assert TimeUnits[8].value * GuessesPerSecond == GuessesPerSecond;
    assert scaled as real / GuessesPerSecond as real <= RepeatCapSeconds as real;
  }

  /** Without repetition runs, and with at least one class present, a longer
      password is never estimated faster than a shorter one. */
  lemma LongerIsNoFaster(p: string, q: string, pools: Criteria)
    requires pools != NoCriteria
    requires !HasRepeatRun(p) && !HasRepeatRun(q) && |p| <= |q|
    ensures Scaled(p, pools) <= Scaled(q, pools)
  {
    PowMonotone(PoolSize(pools), |p|, |q|);
  }
}
