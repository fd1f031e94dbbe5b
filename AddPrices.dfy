/**
 * The price configuration page of a transporter (src/pages/AddPrices.tsx).
 *
 * The page holds a list of zone labels and a zone-to-zone rate matrix with
 * one row and one column per label, the flat and two-part rates of the
 * transporter, and the inputs of the "manual unit price" panel.  The class
 * `PriceConfig` has those state fields; its methods are the handlers.  The
 * matrix shapes are functions (`ZeroMatrix`, `Resized`, `SetCell`) and the
 * `from -> to -> rate` map sent on submit is built by a nested loop proved
 * against the function `ZoneRateMap`.
 */
module AddPrices {
  import opened JsText

  /** The eleven zones installed when the manual panel opens on an empty page. */
  const DefaultZones: seq<string> := ["N1", "N2", "N3", "C1", "W1", "W2", "S1", "S2", "E1", "NE1", "NE2"]

  /** The rates that are one number (the names of the `PriceRate` record). */
  datatype ScalarField =
    | MinWeight | DocketCharges | Fuel | Divisor | MinCharges | GreenTax | DaccCharges | MiscellanousCharges

  /** The rates that have a variable and a fixed part. */
  datatype Section =
    | RovCharges | InuaranceCharges | OdaCharges | CodCharges | PrepaidCharges
    | TopayCharges | HandlingCharges | FmCharges | AppointmentCharges

  datatype Half = Variable | Fixed

  datatype VariableFixed = VariableFixed(variable: real, fixed: real)

  datatype PriceRate = PriceRate(scalars: map<ScalarField, real>, sections: map<Section, VariableFixed>)

  /** What `handleRateChange` is told to change: a flat rate, or one half of a section. */
  datatype RateTarget = Scalar(field: ScalarField) | Part(section: Section, half: Half)

  /** Every rate of the record is present. */
  predicate CompleteRates(p: PriceRate) {
    && (forall f: ScalarField :: f in p.scalars)
    && (forall s: Section :: s in p.sections)
  }

  const ZeroPair := VariableFixed(0.0, 0.0)

  /** The rates the page starts with: everything 0 except the divisor, which is 1. */
  const InitialPriceRate: PriceRate :=
    PriceRate(
      map[MinWeight := 0.0, DocketCharges := 0.0, Fuel := 0.0, Divisor := 1.0,
          MinCharges := 0.0, GreenTax := 0.0, DaccCharges := 0.0, MiscellanousCharges := 0.0],
      map[RovCharges := ZeroPair, InuaranceCharges := ZeroPair, OdaCharges := ZeroPair,
          CodCharges := ZeroPair, PrepaidCharges := ZeroPair, TopayCharges := ZeroPair,
          HandlingCharges := ZeroPair, FmCharges := ZeroPair, AppointmentCharges := ZeroPair])

  lemma InitialPriceRateComplete()
    ensures CompleteRates(InitialPriceRate)
    ensures forall f: ScalarField :: InitialPriceRate.scalars[f] == if f == Divisor then 1.0 else 0.0
    ensures forall s: Section :: InitialPriceRate.sections[s] == ZeroPair
  {
    forall f: ScalarField
      ensures f in InitialPriceRate.scalars && InitialPriceRate.scalars[f] == if f == Divisor then 1.0 else 0.0
    {
      assert f == MinWeight || f == DocketCharges || f == Fuel || f == Divisor
          || f == MinCharges || f == GreenTax || f == DaccCharges || f == MiscellanousCharges;
    }
    forall s: Section ensures s in InitialPriceRate.sections && InitialPriceRate.sections[s] == ZeroPair {
      assert s == RovCharges || s == InuaranceCharges || s == OdaCharges || s == CodCharges
          || s == PrepaidCharges || s == TopayCharges || s == HandlingCharges
          || s == FmCharges || s == AppointmentCharges;
    }
  }

  /**
   * `parseFloat(text) || 0` for a number typed into a rate field: the parsed
   * value, with NaN (`None`) stored as 0.
   */
  function StoredRate(parsed: Option<real>): (v: real)
    ensures parsed.None? ==> v == 0.0
    ensures parsed.Some? ==> v == parsed.value
  {
    match parsed
    case None => 0.0
    case Some(x) => x
  }

  /** The record after `handleRateChange` has stored `value` at `target`. */
  function WithRate(p: PriceRate, target: RateTarget, value: real): (r: PriceRate)
    requires CompleteRates(p)
    ensures CompleteRates(r)
    ensures forall f: ScalarField :: r.scalars[f] == if target == Scalar(f) then value else p.scalars[f]
    ensures forall s: Section :: target.Scalar? || s != target.section ==> r.sections[s] == p.sections[s]
    ensures target.Part? ==>
      var prev := p.sections[target.section];
      r.sections[target.section] ==
        if target.half == Variable then VariableFixed(value, prev.fixed) else VariableFixed(prev.variable, value)
  {
    match target
    case Scalar(f) => p.(scalars := p.scalars[f := value])
    case Part(s, h) =>
      var prev := p.sections[s];
      var next := if h == Variable then prev.(variable := value) else prev.(fixed := value);
      p.(sections := p.sections[s := next])
  }

  // ---------------------------------------------------------------------------
  // Matrix shapes

  /** A matrix with `n` rows of `n` cells each. */
  predicate IsSquare(m: seq<seq<real>>, n: nat) {
    |m| == n && forall i :: 0 <= i < |m| ==> |m[i]| == n
  }

  /** `arr.map(_ => arr.map(__ => 0))`: the all-zero n x n matrix. */
  function ZeroMatrix(n: nat): (m: seq<seq<real>>)
    ensures IsSquare(m, n)
    ensures forall i, j :: 0 <= i < n && 0 <= j < n ==> m[i][j] == 0.0
  {
    seq(n, i => seq(n, j => 0.0))
  }

  /** `prev[i]?.[j] ?? 0`: the old cell when there is one, 0 otherwise. */
  function CellOrZero(m: seq<seq<real>>, i: int, j: int): real {
    if 0 <= i < |m| && 0 <= j < |m[i]| then m[i][j] else 0.0
  }

  /** `rebuildMatrix`: an n x n matrix that keeps every old cell inside it and is 0 elsewhere. */
  function Resized(prev: seq<seq<real>>, n: nat): (m: seq<seq<real>>)
    ensures IsSquare(m, n)
    ensures forall i, j :: 0 <= i < n && 0 <= j < n ==>
      m[i][j] == if i < |prev| && j < |prev[i]| then prev[i][j] else 0.0
  {
    seq(n, i => seq(n, j => CellOrZero(prev, i, j)))
  }

  /** Resizing an empty matrix gives the zero matrix; resizing to the same size changes nothing. */
  lemma ResizedSpecialCases(prev: seq<seq<real>>, n: nat)
    ensures Resized([], n) == ZeroMatrix(n)
    ensures IsSquare(prev, n) ==> Resized(prev, n) == prev
  {
    forall i | 0 <= i < n ensures Resized([], n)[i] == ZeroMatrix(n)[i] {
    }
    if IsSquare(prev, n) {
      var m := Resized(prev, n);
      forall i | 0 <= i < n ensures m[i] == prev[i] {
        assert forall j :: 0 <= j < n ==> m[i][j] == prev[i][j];
      }
    }
  }

  /** `next[i][j] = val` on a copy of the rows: only that cell changes. */
  function SetCell(m: seq<seq<real>>, i: nat, j: nat, v: real): (r: seq<seq<real>>)
    requires i < |m| && j < |m[i]|
    ensures |r| == |m| && forall k :: 0 <= k < |m| ==> |r[k]| == |m[k]|
    ensures forall a, b :: 0 <= a < |m| && 0 <= b < |m[a]| ==>
      r[a][b] == if a == i && b == j then v else m[a][b]
  {
    m[i := m[i][j := v]]
  }

  // ---------------------------------------------------------------------------
  // The submitted map

  /** The last position of `x` in `s`, or -1. */
  function LastIndexOf(s: seq<string>, x: string): (k: int)
    ensures -1 <= k < |s|
    ensures k == -1 <==> x !in s
    ensures k >= 0 ==> s[k] == x && forall a :: k < a < |s| ==> s[a] != x
  {
    if s == [] then -1
    else if s[|s| - 1] == x then |s| - 1
    else LastIndexOf(s[..|s| - 1], x)
  }

  /** The row for the label at position `i`, over the columns `cols`: a later duplicate column wins. */
  function RowRates(rates: seq<seq<real>>, i: int, cols: seq<string>): map<string, real> {
    map to | to in cols :: CellOrZero(rates, i, LastIndexOf(cols, to))
  }

  /**
   * `zr` as `handleSubmit` fills it: for every label, the row of its last
   * occurrence, and in that row for every label the cell of its last
   * occurrence, missing cells as 0.
   */
  function ZoneRateMap(labels: seq<string>, rates: seq<seq<real>>): (zr: map<string, map<string, real>>)
    ensures forall x :: x in zr <==> x in labels
    ensures forall x, y :: x in labels && y in labels ==>
      y in zr[x] && zr[x][y] == CellOrZero(rates, LastIndexOf(labels, x), LastIndexOf(labels, y))
    ensures forall x, y :: x in labels && y !in labels ==> y !in zr[x]
  {
    map from | from in labels :: RowRates(rates, LastIndexOf(labels, from), labels)
  }

  predicate Distinct(s: seq<string>) {
    forall a, b :: 0 <= a < b < |s| ==> s[a] != s[b]
  }

  /** With distinct labels and a square matrix, the map holds exactly the matrix: `zr[l_i][l_j] == rates[i][j]`. */
  lemma ZoneRateMapOfDistinctLabels(labels: seq<string>, rates: seq<seq<real>>)
    requires Distinct(labels) && IsSquare(rates, |labels|)
    ensures forall i, j :: 0 <= i < |labels| && 0 <= j < |labels| ==>
      labels[i] in ZoneRateMap(labels, rates) && labels[j] in ZoneRateMap(labels, rates)[labels[i]] &&
      ZoneRateMap(labels, rates)[labels[i]][labels[j]] == rates[i][j]
  {
    forall i, j | 0 <= i < |labels| && 0 <= j < |labels|
      ensures ZoneRateMap(labels, rates)[labels[i]][labels[j]] == rates[i][j]
    {
      assert LastIndexOf(labels, labels[i]) == i;
      assert LastIndexOf(labels, labels[j]) == j;
    }
  }

  /** Dropping the last element changes the last position of every other value only by hiding the last one. */
  lemma LastIndexOfSnoc(s: seq<string>, n: nat, x: string)
    requires n < |s|
    ensures LastIndexOf(s[..n + 1], x) == if s[n] == x then n else LastIndexOf(s[..n], x)
  {
    assert s[..n + 1][..n] == s[..n];
  }

  /** The same row built over a longer prefix of the columns. */
  lemma RowRatesSnoc(rates: seq<seq<real>>, i: int, labels: seq<string>, j: nat)
    requires j < |labels|
    ensures RowRates(rates, i, labels[..j + 1]) == RowRates(rates, i, labels[..j])[labels[j] := CellOrZero(rates, i, j)]
  {
    var a := RowRates(rates, i, labels[..j + 1]);
    var b := RowRates(rates, i, labels[..j])[labels[j] := CellOrZero(rates, i, j)];
    assert labels[..j + 1] == labels[..j] + [labels[j]];
    forall to | to in a ensures to in b && a[to] == b[to] {
      LastIndexOfSnoc(labels, j, to);
    }
    forall to | to in b ensures to in a {
      assert to == labels[j] || to in labels[..j];
    }
  }

  /** The map built from the first `i` labels. */
  function PartialZoneRateMap(labels: seq<string>, rates: seq<seq<real>>, i: nat): map<string, map<string, real>>
    requires i <= |labels|
  {
    map from | from in labels[..i] :: RowRates(rates, LastIndexOf(labels[..i], from), labels)
  }

  lemma PartialZoneRateMapSnoc(labels: seq<string>, rates: seq<seq<real>>, i: nat)
    requires i < |labels|
    ensures PartialZoneRateMap(labels, rates, i + 1)
      == PartialZoneRateMap(labels, rates, i)[labels[i] := RowRates(rates, i, labels)]
  {
    var a := PartialZoneRateMap(labels, rates, i + 1);
    var b := PartialZoneRateMap(labels, rates, i)[labels[i] := RowRates(rates, i, labels)];
    assert labels[..i + 1] == labels[..i] + [labels[i]];
    forall from | from in a ensures from in b && a[from] == b[from] {
      LastIndexOfSnoc(labels, i, from);
      var k := LastIndexOf(labels[..i + 1], from);
      assert a[from] == RowRates(rates, k, labels);
      if from != labels[i] {
        assert from in labels[..i];
        assert b[from] == RowRates(rates, LastIndexOf(labels[..i], from), labels);
      }
    }
    forall from | from in b ensures from in a {
      assert from == labels[i] || from in labels[..i];
    }
  }

  /**
   * The nested `forEach` of `handleSubmit`: for each label, an empty row is
   * filled with one entry per label, and the row is stored under the label.
   */
  method BuildZoneRates(labels: seq<string>, rates: seq<seq<real>>) returns (zr: map<string, map<string, real>>)
    ensures zr == ZoneRateMap(labels, rates)
  {
    zr := map[];
    for i := 0 to |labels|
      invariant zr == PartialZoneRateMap(labels, rates, i)
    {
      var row: map<string, real> := map[];
      for j := 0 to |labels|
        invariant row == RowRates(rates, i, labels[..j])
      {
        RowRatesSnoc(rates, i, labels, j);
        row := row[labels[j] := CellOrZero(rates, i, j)];
      }
      assert labels[..|labels|] == labels;
      PartialZoneRateMapSnoc(labels, rates, i);
      zr := zr[labels[i] := row];
    }
    assert labels[..|labels|] == labels;
  }

  // ---------------------------------------------------------------------------
  // The page

  /** The request of `handleSubmit`. */
  datatype SubmitPayload = SubmitPayload(companyName: string, priceRate: PriceRate, zoneRates: map<string, map<string, real>>)

  const BlankNameError := "Please enter a transporter name."

  class PriceConfig {
    var transporterName: string
    var zoneLabels: seq<string>
    var zoneRates: seq<seq<real>>
    var priceRate: PriceRate
    var manualFrom: string
    var manualTo: string
    var manualPrice: real
    var showManual: bool
    var error: Option<string>
    var loading: bool

    /** The matrix has one row and one column per label, and every rate is present. */
    predicate Valid()
      reads this
    {
      IsSquare(zoneRates, |zoneLabels|) && CompleteRates(priceRate)
    }

    constructor ()
      ensures Valid()
      ensures transporterName == "" && zoneLabels == [] && zoneRates == []
      ensures priceRate == InitialPriceRate
      ensures manualFrom == "" && manualTo == "" && manualPrice == 0.0
      ensures !showManual && error == None && !loading
    {
      InitialPriceRateComplete();
      transporterName, zoneLabels, zoneRates := "", [], [];
      priceRate := InitialPriceRate;
      manualFrom, manualTo, manualPrice := "", "", 0.0;
      showManual, error, loading := false, None, false;
    }

    /**
     * The load effect.  `savedName` is the stored company name; a missing or
     * empty one leaves the name alone.  `savedZones` is the stored zone list
     * when it parses as a JSON array; then the labels are those zones and the
     * matrix is all zero.
     */
    method LoadSaved(savedName: Option<string>, savedZones: Option<seq<string>>)
      requires Valid()
      modifies this
      ensures Valid()
      ensures transporterName == if savedName.Some? && savedName.value != "" then savedName.value else old(transporterName)
      ensures savedZones.Some? ==> zoneLabels == savedZones.value && zoneRates == ZeroMatrix(|savedZones.value|)
      ensures savedZones.None? ==> zoneLabels == old(zoneLabels) && zoneRates == old(zoneRates)
      ensures priceRate == old(priceRate) && manualFrom == old(manualFrom) && manualTo == old(manualTo)
      ensures manualPrice == old(manualPrice) && showManual == old(showManual)
      ensures error == old(error) && loading == old(loading)
    {
      if savedName.Some? && savedName.value != "" {
        transporterName := savedName.value;
      }
      if savedZones.Some? {
        zoneLabels := savedZones.value;
        zoneRates := ZeroMatrix(|savedZones.value|);
      }
    }

    /** `handleRateChange`: the parsed input, or 0 when it is not a number, at the one target. */
    method HandleRateChange(target: RateTarget, parsed: Option<real>)
      requires Valid()
      modifies this
      ensures Valid()
      ensures priceRate == WithRate(old(priceRate), target, StoredRate(parsed))
      ensures transporterName == old(transporterName) && zoneLabels == old(zoneLabels) && zoneRates == old(zoneRates)
      ensures manualFrom == old(manualFrom) && manualTo == old(manualTo) && manualPrice == old(manualPrice)
      ensures showManual == old(showManual) && error == old(error) && loading == old(loading)
    {
      priceRate := WithRate(priceRate, target, StoredRate(parsed));
    }

    /** `handleCellChange`: cell (i, j) of the table becomes `v`. */
    method HandleCellChange(i: nat, j: nat, v: real)
      requires Valid() && i < |zoneRates| && j < |zoneLabels|
      modifies this
      ensures Valid()
      ensures zoneRates == SetCell(old(zoneRates), i, j, v)
      ensures transporterName == old(transporterName) && zoneLabels == old(zoneLabels) && priceRate == old(priceRate)
      ensures manualFrom == old(manualFrom) && manualTo == old(manualTo) && manualPrice == old(manualPrice)
      ensures showManual == old(showManual) && error == old(error) && loading == old(loading)
    {
      var next := zoneRates;
      next := next[i := next[i][j := v]];
      zoneRates := next;
    }

    method SetManualFrom(choice: string)
      modifies this
      ensures manualFrom == choice
      ensures transporterName == old(transporterName) && zoneLabels == old(zoneLabels) && zoneRates == old(zoneRates)
      ensures priceRate == old(priceRate) && manualTo == old(manualTo) && manualPrice == old(manualPrice)
      ensures showManual == old(showManual) && error == old(error) && loading == old(loading)
    {
      manualFrom := choice;
    }

    method SetManualTo(choice: string)
      modifies this
      ensures manualTo == choice
      ensures transporterName == old(transporterName) && zoneLabels == old(zoneLabels) && zoneRates == old(zoneRates)
      ensures priceRate == old(priceRate) && manualFrom == old(manualFrom) && manualPrice == old(manualPrice)
      ensures showManual == old(showManual) && error == old(error) && loading == old(loading)
    {
      manualTo := choice;
    }

    /** The unit price input: the parsed number, or 0 when it is not a number. */
    method SetManualPrice(parsed: Option<real>)
      modifies this
      ensures manualPrice == StoredRate(parsed)
      ensures transporterName == old(transporterName) && zoneLabels == old(zoneLabels) && zoneRates == old(zoneRates)
      ensures priceRate == old(priceRate) && manualFrom == old(manualFrom) && manualTo == old(manualTo)
      ensures showManual == old(showManual) && error == old(error) && loading == old(loading)
    {
      manualPrice := StoredRate(parsed);
    }

    /**
     * `handleAddUnitPrice`: when both chosen labels are in the list, the unit
     * price goes into the cell of their first occurrences and the input is
     * reset to 0; otherwise nothing changes.
     */
    method HandleAddUnitPrice()
      requires Valid()
      modifies this
      ensures Valid()
      ensures var i := IndexOf(old(zoneLabels), old(manualFrom)); var j := IndexOf(old(zoneLabels), old(manualTo));
        if i >= 0 && j >= 0 then
          zoneRates == SetCell(old(zoneRates), i, j, old(manualPrice)) && manualPrice == 0.0
        else
          zoneRates == old(zoneRates) && manualPrice == old(manualPrice)
      ensures transporterName == old(transporterName) && zoneLabels == old(zoneLabels) && priceRate == old(priceRate)
      ensures manualFrom == old(manualFrom) && manualTo == old(manualTo)
      ensures showManual == old(showManual) && error == old(error) && loading == old(loading)
    {
      var i := IndexOf(zoneLabels, manualFrom);
      var j := IndexOf(zoneLabels, manualTo);
      if i >= 0 && j >= 0 {
        HandleCellChange(i, j, manualPrice);
        manualPrice := 0.0;
      }
    }

    /**
     * `handleToggleManual`: the panel opens or closes; opening it on a page
     * without labels installs the eleven default zones and an all-zero matrix.
     */
    method HandleToggleManual()
      requires Valid()
      modifies this
      ensures Valid()
      ensures showManual == !old(showManual)
      ensures !old(showManual) && old(zoneLabels) == [] ==>
        zoneLabels == DefaultZones && zoneRates == ZeroMatrix(|DefaultZones|)
      ensures old(showManual) || old(zoneLabels) != [] ==>
        zoneLabels == old(zoneLabels) && zoneRates == old(zoneRates)
      ensures transporterName == old(transporterName) && priceRate == old(priceRate)
      ensures manualFrom == old(manualFrom) && manualTo == old(manualTo) && manualPrice == old(manualPrice)
      ensures error == old(error) && loading == old(loading)
    {
      if !showManual && |zoneLabels| == 0 {
        zoneLabels := DefaultZones;
        ResizedSpecialCases(zoneRates, |DefaultZones|);
        zoneRates := Resized(zoneRates, |DefaultZones|);
      }
      showManual := !showManual;
    }

    /**
     * `handleSubmit` up to the request: the error is cleared; a blank name
     * sets the error and sends nothing; otherwise the request carries the
     * name, the rates and the nested map of the matrix, and saving starts.
     */
    method HandleSubmit() returns (request: Option<SubmitPayload>)
      requires Valid()
      modifies this
      ensures Valid()
      ensures IsBlank(old(transporterName)) ==>
        request == None && error == Some(BlankNameError) && loading == old(loading)
      ensures !IsBlank(old(transporterName)) ==>
        && request == Some(SubmitPayload(old(transporterName), old(priceRate), ZoneRateMap(old(zoneLabels), old(zoneRates))))
        && error == None && loading
      ensures transporterName == old(transporterName) && zoneLabels == old(zoneLabels) && zoneRates == old(zoneRates)
      ensures priceRate == old(priceRate) && manualFrom == old(manualFrom) && manualTo == old(manualTo)
      ensures manualPrice == old(manualPrice) && showManual == old(showManual)
    {
      error := None;
      var name := transporterName;
      if IsBlank(name) {
        error := Some(BlankNameError);
        return None;
      }
      var zr := BuildZoneRates(zoneLabels, zoneRates);
      assert zr == ZoneRateMap(old(zoneLabels), old(zoneRates));
      request := Some(SubmitPayload(name, priceRate, zr));
      loading := true;
    }

    /**
     * The end of `handleSubmit`: `failure` is `None` when the server accepted
     * the configuration, or the message it answered with.  Saving stops; a
     * failure shows the server's message, or 'Save failed' without one.
     */
    method SettleSubmit(failure: Option<Option<string>>)
      modifies this
      ensures !loading
      ensures failure.None? ==> error == old(error)
      ensures failure.Some? ==>
        error == Some(if failure.value.Some? && failure.value.value != "" then failure.value.value else "Save failed")
      ensures transporterName == old(transporterName) && zoneLabels == old(zoneLabels) && zoneRates == old(zoneRates)
      ensures priceRate == old(priceRate) && manualFrom == old(manualFrom) && manualTo == old(manualTo)
      ensures manualPrice == old(manualPrice) && showManual == old(showManual)
    {
      if failure.Some? {
        var m := failure.value;
        error := Some(if m.Some? && m.value != "" then m.value else "Save failed");
      }
      loading := false;
    }
  }
}
