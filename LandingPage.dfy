/**
 * The demo shipping calculator of the landing page (src/pages/LandingPage.tsx).
 *
 * The demo takes two pincodes and a weight, checks them, and shows a
 * made-up distance (the difference of the pincodes over 100), a delivery
 * estimate of one day per 500 of that distance (at least one day) and a
 * cost.  The class `DemoCalculator` has the demo's state and `RunDemoCalc`
 * is the submit handler.
 */
module LandingPage {
  import opened JsText

  const PincodeError := "Please enter valid 6-digit Indian pincodes."
  const WeightError := "Please enter a valid weight (> 0)."

  /** `Math.ceil` on a real number. */
  function Ceil(x: real): (c: int)
    ensures (c - 1) as real < x <= c as real
  {
    -((-x).Floor)
  }

  function Abs(n: int): nat {
    if n < 0 then -n else n
  }

  /** `Math.abs(fromNum - toNum) / 100`. */
  function Distance(fromNum: int, toNum: int): (d: real)
    ensures d >= 0.0
  {
    Abs(fromNum - toNum) as real / 100.0
  }

  /** `Math.max(1, Math.ceil(dist / 500))`. */
  function Eta(fromNum: int, toNum: int): (days: int)
    ensures days >= 1
  {
    var c := Ceil(Distance(fromNum, toNum) / 500.0);
    if c < 1 then 1 else c
  }

  /** The demo cost before it is rounded to cents: distance times weight times 7. */
  function Cost(fromNum: int, toNum: int, weight: real): (c: real)
    ensures weight >= 0.0 ==> c >= 0.0
    ensures c == 0.0 <==> fromNum == toNum || weight == 0.0
  {
    Distance(fromNum, toNum) * weight * 7.0
  }

  /** The estimate does not depend on the direction of travel. */
  lemma EtaSymmetric(fromNum: int, toNum: int)
    ensures Eta(fromNum, toNum) == Eta(toNum, fromNum)
  {
    assert Abs(fromNum - toNum) == Abs(toNum - fromNum);
  }

  /**
   * The estimate is the least whole number of days k >= 1 whose 50000
   * pincode units cover the difference of the pincodes.
   */
  lemma EtaIsLeastCover(fromNum: int, toNum: int)
    ensures var k := Eta(fromNum, toNum);
      && Abs(fromNum - toNum) <= 50000 * k
      && (k == 1 || Abs(fromNum - toNum) > 50000 * (k - 1))
  {
    var k := Eta(fromNum, toNum);
    var x := Distance(fromNum, toNum) / 500.0;
    var c := Ceil(x);
    assert x == Abs(fromNum - toNum) as real / 50000.0;
    if c < 1 {
      assert x <= 1.0;
    } else {
      assert k == c;
      assert (k - 1) as real < x <= k as real;
      assert (k - 1) as real * 50000.0 < Abs(fromNum - toNum) as real;
      assert Abs(fromNum - toNum) as real <= k as real * 50000.0;
    }
  }

  /** The day and its plural, as the result line shows it. */
  function DayWord(eta: int): (w: string)
    ensures w == "day" <==> eta == 1
    ensures w == "days" <==> eta != 1
  {
    if eta == 1 then "day" else "days"
  }

  class DemoCalculator {
    var showDemo: bool
    var demoFrom: string
    var demoTo: string
    var demoWeight: string
    var demoDistance: Option<real>
    var demoETA: Option<int>
    var demoCost: Option<real>
    var demoError: Option<string>

    constructor ()
      ensures !showDemo && demoFrom == "" && demoTo == "" && demoWeight == ""
      ensures demoDistance == None && demoETA == None && demoCost == None && demoError == None
    {
      showDemo, demoFrom, demoTo, demoWeight := false, "", "", "";
      demoDistance, demoETA, demoCost, demoError := None, None, None, None;
    }

    /** The result lines are on the screen once all three numbers are there. */
    predicate ResultShown()
      reads this
    {
      demoDistance.Some? && demoETA.Some? && demoCost.Some?
    }

    /**
     * `runDemoCalc`.  `parsedWeight` is `parseFloat` of the weight text,
     * `None` standing for NaN.  The error is cleared; two six-digit pincodes
     * are checked first, then a positive weight; a failing check sets its
     * error and leaves the last result on the screen.  Otherwise the
     * distance, the estimate and the cost of those pincodes are shown.
     */
    method RunDemoCalc(parsedWeight: Option<real>)
      modifies this
      ensures !IsSixDigits(old(demoFrom)) || !IsSixDigits(old(demoTo)) ==>
        demoError == Some(PincodeError)
        && demoDistance == old(demoDistance) && demoETA == old(demoETA) && demoCost == old(demoCost)
      ensures IsSixDigits(old(demoFrom)) && IsSixDigits(old(demoTo)) && (parsedWeight.None? || parsedWeight.value <= 0.0) ==>
        demoError == Some(WeightError)
        && demoDistance == old(demoDistance) && demoETA == old(demoETA) && demoCost == old(demoCost)
      ensures IsSixDigits(old(demoFrom)) && IsSixDigits(old(demoTo)) && parsedWeight.Some? && parsedWeight.value > 0.0 ==>
        var f := DecimalValue(old(demoFrom)); var t := DecimalValue(old(demoTo));
        && demoError == None
        && demoDistance == Some(Distance(f, t))
        && demoETA == Some(Eta(f, t))
        && demoCost == Some(Cost(f, t, parsedWeight.value))
        && ResultShown()
      ensures !(IsSixDigits(old(demoFrom)) && IsSixDigits(old(demoTo)) && parsedWeight.Some? && parsedWeight.value > 0.0) ==>
        ResultShown() == old(ResultShown())
      ensures showDemo == old(showDemo) && demoFrom == old(demoFrom) && demoTo == old(demoTo) && demoWeight == old(demoWeight)
    {
      var from, to := demoFrom, demoTo;
      if !IsSixDigits(from) || !IsSixDigits(to) {
        demoError := Some(PincodeError);
        return;
      }
      if parsedWeight.None? || parsedWeight.value <= 0.0 {
        demoError := Some(WeightError);
        return;
      }
      var w := parsedWeight.value;
      ParseIntOfDigits(from);
      ParseIntOfDigits(to);
      var fromNum := ParseInt(from).value;
      var toNum := ParseInt(to).value;
      assert fromNum == DecimalValue(from) && toNum == DecimalValue(to);
      var dist := Distance(fromNum, toNum);
      var etaDays := Eta(fromNum, toNum);
      var cost := Cost(fromNum, toNum, w);
      demoError := None;
      demoDistance, demoETA, demoCost := Some(dist), Some(etaDays), Some(cost);
    }
  }

  /** The distance of two six-digit pincodes is below 10000, so the estimate is at most 20 days. */
  lemma EtaOfPincodes(f: string, t: string)
    requires IsSixDigits(f) && IsSixDigits(t)
    ensures 1 <= Eta(DecimalValue(f), DecimalValue(t)) <= 20
  {
    SixDigitBound(f);
    SixDigitBound(t);
    EtaIsLeastCover(DecimalValue(f), DecimalValue(t));
  }

  lemma SixDigitBound(s: string)
    requires IsSixDigits(s)
    ensures DecimalValue(s) <= 999999
  {
    DigitsBound(s);
  }

  /** A string of n digits is worth less than 10^n. */
  lemma {:induction false} DigitsBound(s: string)
    requires AllDigits(s)
    ensures DecimalValue(s) < Power10(|s|)
  {
    if s != [] {
      DigitsBound(s[..|s| - 1]);
    }
  }

  function Power10(n: nat): (p: nat)
    ensures p >= 1
  {
    if n == 0 then 1 else 10 * Power10(n - 1)
  }
}
