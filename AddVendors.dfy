/**
 * The vendor onboarding editor (src/pages/AddVendor.tsx).
 *
 * The page keeps a list of vendor entries.  Each entry has its details, its
 * charge pairs, a list of zones and a square zone-to-zone rate matrix of
 * strings.  Every edit handler is a pure transformation of the whole list
 * (the function given to `updateVendors`): these are the functions below,
 * and their lemmas show that each keeps every entry's matrix
 * |zones| x |zones|.  Saving all vendors is a loop over the list, split at
 * its requests into `VendorEditor.BeginSaveAll` and
 * `VendorEditor.FinishSaveAll`.
 */
module AddVendors {
  import opened JsText

  /** How far a zone is served: 'none', 'partial' (a custom pincode list) or 'all'. */
  datatype Coverage = Inactive | Partial | All

  datatype Zone = Zone(name: string, pincodes: string, coverage: Coverage)

  datatype ChargePair = ChargePair(variable: string, fixed: string)

  /** The plain text fields of a vendor entry, the ones `updateField` may name. */
  datatype TextField =
    | VendorName | VendorCode | VendorPhone | VendorEmail | GstNo | Mode
    | Address | State | Pincode | FuelSurcharge | DocketCharge | MinWeight
    | DivisorCoefficient | MinCharges | GreenTax | DaccCharges | MiscellaneousCharges

  /** The charges that have a variable and a fixed part, the ones `updateChargeField` may name. */
  datatype ChargeKind =
    | RovCharges | InsuranceCharges | OdaCharges | CodCharges | PrepaidCharges
    | TopayCharges | HandlingCharges | FmCharges | AppointmentCharges

  datatype ChargePart = Variable | Fixed

  datatype ZoneField = Name | Pincodes

  /**
   * One vendor being written: the text fields and charge pairs by name,
   * the zones and the rate matrix (`prices[row][col]`).
   */
  datatype VendorEntry = VendorEntry(
    text: map<TextField, string>,
    charges: map<ChargeKind, ChargePair>,
    zones: seq<Zone>,
    prices: seq<seq<string>>)

  /** Every named field is present, as the record type of the source guarantees. */
  predicate Complete(v: VendorEntry) {
    && (forall f: TextField :: f in v.text)
    && (forall k: ChargeKind :: k in v.charges)
  }

  /** The rate matrix has one row per zone and one column per zone. */
  predicate Square(v: VendorEntry) {
    && |v.prices| == |v.zones|
    && forall r :: 0 <= r < |v.prices| ==> |v.prices[r]| == |v.zones|
  }

  predicate WellFormed(v: VendorEntry) { Complete(v) && Square(v) }

  predicate AllWellFormed(vs: seq<VendorEntry>) {
    forall i :: 0 <= i < |vs| ==> WellFormed(vs[i])
  }

  const EmptyZone := Zone("", "", Inactive)

  const BlankText: map<TextField, string> :=
    map[VendorName := "", VendorCode := "", VendorPhone := "", VendorEmail := "",
        GstNo := "", Mode := "", Address := "", State := "", Pincode := "",
        FuelSurcharge := "", DocketCharge := "", MinWeight := "",
        DivisorCoefficient := "", MinCharges := "", GreenTax := "",
        DaccCharges := "", MiscellaneousCharges := ""]

  const BlankCharges: map<ChargeKind, ChargePair> :=
    var empty := ChargePair("", "");
    map[RovCharges := empty, InsuranceCharges := empty, OdaCharges := empty,
        CodCharges := empty, PrepaidCharges := empty, TopayCharges := empty,
        HandlingCharges := empty, FmCharges := empty, AppointmentCharges := empty]

  lemma BlankMapsComplete()
    ensures forall f: TextField :: f in BlankText && BlankText[f] == ""
    ensures forall k: ChargeKind :: k in BlankCharges && BlankCharges[k] == ChargePair("", "")
  {
    forall f: TextField ensures f in BlankText && BlankText[f] == "" {
      assert f == VendorName || f == VendorCode || f == VendorPhone || f == VendorEmail
          || f == GstNo || f == Mode || f == Address || f == State || f == Pincode
          || f == FuelSurcharge || f == DocketCharge || f == MinWeight
          || f == DivisorCoefficient || f == MinCharges || f == GreenTax
          || f == DaccCharges || f == MiscellaneousCharges;
    }
    forall k: ChargeKind ensures k in BlankCharges && BlankCharges[k] == ChargePair("", "") {
      assert k == RovCharges || k == InsuranceCharges || k == OdaCharges
          || k == CodCharges || k == PrepaidCharges || k == TopayCharges
          || k == HandlingCharges || k == FmCharges || k == AppointmentCharges;
    }
  }

  /** `initialVendorState`: every field empty, one inactive zone and a 1 x 1 matrix holding ''. */
  function InitialVendorState(): (v: VendorEntry)
    ensures WellFormed(v)
    ensures forall f: TextField :: v.text[f] == ""
    ensures forall k: ChargeKind :: v.charges[k] == ChargePair("", "")
    ensures v.zones == [EmptyZone] && v.prices == [[""]]
  {
    BlankMapsComplete();
    VendorEntry(BlankText, BlankCharges, [EmptyZone], [[""]])
  }

  // ---------------------------------------------------------------------------
  // Deleting by index (`filter((_, i) => i !== k)`)

  /** The position in the original sequence of position `i` of the sequence with index `k` removed. */
  function Shifted(i: int, k: int): int {
    if 0 <= k <= i then i + 1 else i
  }

  /** `s.filter((_, i) => i !== k)`: removes position `k`, or nothing when `k` is out of range. */
  function RemoveAt<T>(s: seq<T>, k: int): (r: seq<T>)
    ensures |r| == if 0 <= k < |s| then |s| - 1 else |s|
    ensures forall i :: 0 <= i < |r| ==> 0 <= Shifted(i, k) < |s| && r[i] == s[Shifted(i, k)]
  {
    if 0 <= k < |s| then s[..k] + s[k + 1..] else s
  }

  // ---------------------------------------------------------------------------
  // Pincode formatting

  /** `digits.match(/.{1,6}/g) || []`: consecutive pieces of six, the last one shorter. */
  function Chunks(d: string): (r: seq<string>)
    ensures Concat(r) == d
    ensures r == [] <==> d == []
    ensures forall i :: 0 <= i < |r| ==> 1 <= |r[i]| <= 6
    ensures forall i :: 0 <= i < |r| - 1 ==> |r[i]| == 6
    decreases |d|
  {
    if d == [] then []
    else if |d| <= 6 then [d]
    else [d[..6]] + Chunks(d[6..])
  }

  function Concat(parts: seq<string>): string {
    if parts == [] then "" else parts[0] + Concat(parts[1..])
  }

  /**
   * `formatPincodes`: keep the digits, cut them into sixes and join the
   * pieces with commas.  The result holds only digits and commas; without
   * its commas it is the digits of the input; it is empty exactly when the
   * input has no digit.
   */
  function FormatPincodes(raw: string): (r: string)
    ensures DigitsAndCommas(r)
    ensures WithoutCommas(r) == Digits(raw)
    ensures Digits(r) == Digits(raw)
    ensures r == "" <==> Digits(raw) == ""
  {
    var chunks := Chunks(Digits(raw));
    ChunksAreDigits(Digits(raw));
    JoinOfDigitPieces(chunks);
    if chunks == [] then Join(chunks, ",")
    else
      assert |chunks[0]| >= 1;
      JoinNonEmpty(chunks);
      Join(chunks, ",")
  }

  /** The text with every comma removed. */
  function WithoutCommas(s: string): string {
    if s == [] then [] else (if s[0] == ',' then [] else [s[0]]) + WithoutCommas(s[1..])
  }

  predicate DigitsAndCommas(s: string) {
    forall i :: 0 <= i < |s| ==> IsDigit(s[i]) || s[i] == ','
  }

  lemma {:induction false} WithoutCommasOfConcat(a: string, b: string)
    ensures WithoutCommas(a + b) == WithoutCommas(a) + WithoutCommas(b)
  {
    if a == [] {
      assert a + b == b;
    } else {
      assert (a + b)[0] == a[0];
      assert (a + b)[1..] == a[1..] + b;
      WithoutCommasOfConcat(a[1..], b);
    }
  }

  lemma {:induction false} WithoutCommasOfDigits(s: string)
    requires AllDigits(s)
    ensures WithoutCommas(s) == s
  {
    if s != [] {
      WithoutCommasOfDigits(s[1..]);
    }
  }

  /** What the pieces of a comma join are made of, and what is left when the commas go. */
  lemma {:induction false} JoinOfDigitPieces(parts: seq<string>)
    requires forall i :: 0 <= i < |parts| ==> AllDigits(parts[i])
    ensures DigitsAndCommas(Join(parts, ","))
    ensures WithoutCommas(Join(parts, ",")) == Concat(parts)
    ensures Digits(Join(parts, ",")) == Concat(parts)
  {
    if |parts| == 1 {
      WithoutCommasOfDigits(parts[0]);
      DigitsOfDigits(parts[0]);
      assert Concat(parts[1..]) == "";
      assert Concat(parts) == parts[0] + "";
    } else if |parts| > 1 {
      var rest := Join(parts[1..], ",");
      JoinOfDigitPieces(parts[1..]);
      assert Join(parts, ",") == parts[0] + ("," + rest);
      WithoutCommasOfConcat(parts[0], "," + rest);
      WithoutCommasOfConcat(",", rest);
      WithoutCommasOfDigits(parts[0]);
      DigitsOfConcat(parts[0], "," + rest);
      DigitsOfConcat(",", rest);
      DigitsOfDigits(parts[0]);
    }
  }

  lemma {:induction false} ChunksAreDigits(d: string)
    requires AllDigits(d)
    ensures forall i :: 0 <= i < |Chunks(d)| ==> AllDigits(Chunks(d)[i])
    decreases |d|
  {
    if |d| > 6 {
      ChunksAreDigits(d[6..]);
    }
  }

  lemma {:induction false} JoinNonEmpty(parts: seq<string>)
    requires |parts| >= 1 && |parts[0]| >= 1
    ensures Join(parts, ",") != ""
  {
    if |parts| > 1 {
      assert Join(parts, ",")[0] == parts[0][0];
    }
  }

  /** Formatting an already formatted list of pincodes returns it unchanged. */
  lemma FormatPincodesIdempotent(raw: string)
    ensures FormatPincodes(FormatPincodes(raw)) == FormatPincodes(raw)
  {
  }

  /** The comma-separated pieces of a formatted list: sixes, except a last piece of one to six digits. */
  lemma FormatPincodesPieces(raw: string)
    requires Digits(raw) != ""
    ensures Split(FormatPincodes(raw), ',') == Chunks(Digits(raw))
    ensures var pieces := Split(FormatPincodes(raw), ',');
      && (forall i :: 0 <= i < |pieces| - 1 ==> |pieces[i]| == 6)
      && 1 <= |pieces[|pieces| - 1]| <= 6
      && (forall i :: 0 <= i < |pieces| ==> AllDigits(pieces[i]))
  {
    var chunks := Chunks(Digits(raw));
    ChunksAreDigits(Digits(raw));
    forall i | 0 <= i < |chunks| ensures ',' !in chunks[i] {
      assert AllDigits(chunks[i]);
      assert forall j :: 0 <= j < |chunks[i]| ==> chunks[i][j] != ',';
    }
    SplitJoin(chunks, ',');
  }

  // ---------------------------------------------------------------------------
  // Coverage states

  /** One click on a zone header: none -> partial -> all -> none. */
  function NextCoverage(c: Coverage): (n: Coverage)
    ensures n != c
  {
    match c
    case Inactive => Partial
    case Partial => All
    case All => Inactive
  }

  /** The coverage cycle has period three: two clicks never return, three always do. */
  lemma CoverageCycle(c: Coverage)
    ensures NextCoverage(NextCoverage(c)) != c
    ensures NextCoverage(NextCoverage(NextCoverage(c))) == c
  {
  }

  /** The zone after one coverage click: the pincode list goes when leaving 'partial'. */
  function ToggledZone(z: Zone): (r: Zone)
    ensures r.name == z.name
    ensures r.coverage == NextCoverage(z.coverage)
    ensures r.pincodes == (if z.coverage == Partial then "" else z.pincodes)
  {
    z.(coverage := NextCoverage(z.coverage),
       pincodes := if z.coverage == Partial then "" else z.pincodes)
  }

  /** The zone after editing its name or its pincodes. */
  function EditedZone(z: Zone, field: ZoneField, value: string): (r: Zone)
    ensures field == Name ==> r == z.(name := value)
    ensures field == Pincodes ==> r.name == z.name && r.pincodes == value
    ensures field == Pincodes && !IsBlank(value) ==> r.coverage == Partial
    ensures field == Name || IsBlank(value) ==> r.coverage == z.coverage
  {
    match field
    case Name => z.(name := value)
    case Pincodes => z.(pincodes := value, coverage := if !IsBlank(value) then Partial else z.coverage)
  }

  /** A zone named by a cell edit turns from 'none' to 'all' when the new rate is not blank. */
  function PromotedZone(z: Zone, touched: bool, value: string): (r: Zone)
    ensures r.name == z.name && r.pincodes == z.pincodes
    ensures r.coverage == (if touched && !IsBlank(value) && z.coverage == Inactive then All else z.coverage)
  {
    if touched && !IsBlank(value) && z.coverage == Inactive then z.(coverage := All) else z
  }

  // ---------------------------------------------------------------------------
  // Edits of one vendor entry

  function WithField(v: VendorEntry, f: TextField, value: string): (r: VendorEntry)
    ensures r.text == v.text[f := value]
    ensures r.charges == v.charges && r.zones == v.zones && r.prices == v.prices
    ensures WellFormed(v) ==> WellFormed(r)
  {
    v.(text := v.text[f := value])
  }

  function WithPart(p: ChargePair, part: ChargePart, value: string): ChargePair {
    match part
    case Variable => p.(variable := value)
    case Fixed => p.(fixed := value)
  }

  function WithChargePart(v: VendorEntry, k: ChargeKind, part: ChargePart, value: string): (r: VendorEntry)
    requires Complete(v)
    ensures r.charges.Keys == v.charges.Keys
    ensures forall k' :: k' in v.charges && k' != k ==> r.charges[k'] == v.charges[k']
    ensures part == Variable ==> r.charges[k] == ChargePair(value, v.charges[k].fixed)
    ensures part == Fixed ==> r.charges[k] == ChargePair(v.charges[k].variable, value)
    ensures r.text == v.text && r.zones == v.zones && r.prices == v.prices
    ensures WellFormed(v) ==> WellFormed(r)
  {
    v.(charges := v.charges[k := WithPart(v.charges[k], part, value)])
  }

  /** `addZone` on one entry: an empty zone at the end, a new last column and a new last row of ''. */
  function WithZoneAdded(v: VendorEntry): (r: VendorEntry)
    ensures r.zones == v.zones + [EmptyZone]
    ensures |r.prices| == |v.prices| + 1
    ensures forall i :: 0 <= i < |v.prices| ==> |r.prices[i]| == |v.prices[i]| + 1
    ensures forall i, j :: 0 <= i < |v.prices| && 0 <= j < |v.prices[i]| ==> r.prices[i][j] == v.prices[i][j]
    ensures forall i :: 0 <= i < |v.prices| ==> r.prices[i][|v.prices[i]|] == ""
    ensures |r.prices[|v.prices|]| == |v.zones| + 1
    ensures forall j :: 0 <= j < |v.zones| + 1 ==> r.prices[|v.prices|][j] == ""
    ensures r.text == v.text && r.charges == v.charges
    ensures WellFormed(v) ==> WellFormed(r)
  {
    var rows := seq(|v.prices|, i requires 0 <= i < |v.prices| => v.prices[i] + [""]);
    var lastRow := seq(|v.zones| + 1, _ => "");
    v.(zones := v.zones + [EmptyZone], prices := rows + [lastRow])
  }

  /** `removeZone` on one entry: zone `k`, row `k` and column `k` go; the rest keeps its order. */
  function WithZoneRemoved(v: VendorEntry, k: int): (r: VendorEntry)
    ensures r.zones == RemoveAt(v.zones, k)
    ensures |r.prices| == |RemoveAt(v.prices, k)|
    ensures forall i :: 0 <= i < |r.prices| ==> r.prices[i] == RemoveAt(v.prices[Shifted(i, k)], k)
    ensures r.text == v.text && r.charges == v.charges
    ensures WellFormed(v) ==> WellFormed(r)
  {
    var rows := RemoveAt(v.prices, k);
    v.(zones := RemoveAt(v.zones, k),
       prices := seq(|rows|, i requires 0 <= i < |rows| => RemoveAt(rows[i], k)))
  }

  function WithZoneEdited(v: VendorEntry, k: int, field: ZoneField, value: string): (r: VendorEntry)
    ensures |r.zones| == |v.zones|
    ensures forall j :: 0 <= j < |v.zones| && j != k ==> r.zones[j] == v.zones[j]
    ensures 0 <= k < |v.zones| ==> r.zones[k] == EditedZone(v.zones[k], field, value)
    ensures r.text == v.text && r.charges == v.charges && r.prices == v.prices
    ensures WellFormed(v) ==> WellFormed(r)
  {
    if 0 <= k < |v.zones| then v.(zones := v.zones[k := EditedZone(v.zones[k], field, value)]) else v
  }

  function WithCoverageToggled(v: VendorEntry, k: int): (r: VendorEntry)
    ensures |r.zones| == |v.zones|
    ensures forall j :: 0 <= j < |v.zones| && j != k ==> r.zones[j] == v.zones[j]
    ensures 0 <= k < |v.zones| ==> r.zones[k] == ToggledZone(v.zones[k])
    ensures r.text == v.text && r.charges == v.charges && r.prices == v.prices
    ensures WellFormed(v) ==> WellFormed(r)
  {
    if 0 <= k < |v.zones| then v.(zones := v.zones[k := ToggledZone(v.zones[k])]) else v
  }

  /** `handlePriceChange` on one entry: cell (row, col) becomes `value`, and rows `row`, `col` may turn active. */
  function WithPrice(v: VendorEntry, row: int, col: int, value: string): (r: VendorEntry)
    ensures |r.prices| == |v.prices|
    ensures forall i :: 0 <= i < |v.prices| ==> |r.prices[i]| == |v.prices[i]|
    ensures forall i, j :: 0 <= i < |v.prices| && 0 <= j < |v.prices[i]| ==>
      r.prices[i][j] == if i == row && j == col then value else v.prices[i][j]
    ensures |r.zones| == |v.zones|
    ensures forall j :: 0 <= j < |v.zones| ==> r.zones[j] == PromotedZone(v.zones[j], j == row || j == col, value)
    ensures r.text == v.text && r.charges == v.charges
    ensures WellFormed(v) ==> WellFormed(r)
  {
    var prices := if 0 <= row < |v.prices| && 0 <= col < |v.prices[row]|
                  then v.prices[row := v.prices[row][col := value]] else v.prices;
    var zones := seq(|v.zones|, j requires 0 <= j < |v.zones| => PromotedZone(v.zones[j], j == row || j == col, value));
    v.(prices := prices, zones := zones)
  }

  // ---------------------------------------------------------------------------
  // Handlers: transformations of the whole vendor list

  /** `addVendor`: a fresh initial entry at the end. */
  function AddVendor(vs: seq<VendorEntry>): (r: seq<VendorEntry>)
    ensures |r| == |vs| + 1 && r[..|vs|] == vs && r[|vs|] == InitialVendorState()
    ensures AllWellFormed(vs) ==> AllWellFormed(r)
  {
    vs + [InitialVendorState()]
  }

  /** `removeVendor`: the entry at `idx` goes; nothing happens for an index outside the list. */
  function RemoveVendor(vs: seq<VendorEntry>, idx: int): (r: seq<VendorEntry>)
    ensures r == RemoveAt(vs, idx)
    ensures AllWellFormed(vs) ==> AllWellFormed(r)
  {
    RemoveAt(vs, idx)
  }

  /** Replaces entry `vidx` by `v`; an index outside the list leaves the list as it is. */
  function Replace(vs: seq<VendorEntry>, vidx: int, v: VendorEntry): (r: seq<VendorEntry>)
    ensures |r| == |vs|
    ensures forall i :: 0 <= i < |vs| && i != vidx ==> r[i] == vs[i]
    ensures 0 <= vidx < |vs| ==> r[vidx] == v
    ensures AllWellFormed(vs) && WellFormed(v) ==> AllWellFormed(r)
  {
    if 0 <= vidx < |vs| then vs[vidx := v] else vs
  }

  function UpdateField(vs: seq<VendorEntry>, vidx: int, f: TextField, value: string): (r: seq<VendorEntry>)
    ensures |r| == |vs|
    ensures forall i :: 0 <= i < |vs| && i != vidx ==> r[i] == vs[i]
    ensures 0 <= vidx < |vs| ==> r[vidx] == WithField(vs[vidx], f, value)
    ensures AllWellFormed(vs) ==> AllWellFormed(r)
  {
    if 0 <= vidx < |vs| then Replace(vs, vidx, WithField(vs[vidx], f, value)) else vs
  }

  function UpdateChargeField(vs: seq<VendorEntry>, vidx: int, k: ChargeKind, part: ChargePart, value: string): (r: seq<VendorEntry>)
    requires AllWellFormed(vs)
    ensures |r| == |vs|
    ensures forall i :: 0 <= i < |vs| && i != vidx ==> r[i] == vs[i]
    ensures 0 <= vidx < |vs| ==> r[vidx] == WithChargePart(vs[vidx], k, part, value)
    ensures AllWellFormed(r)
  {
    if 0 <= vidx < |vs| then Replace(vs, vidx, WithChargePart(vs[vidx], k, part, value)) else vs
  }

  function AddZone(vs: seq<VendorEntry>, vidx: int): (r: seq<VendorEntry>)
    ensures |r| == |vs|
    ensures forall i :: 0 <= i < |vs| && i != vidx ==> r[i] == vs[i]
    ensures 0 <= vidx < |vs| ==> r[vidx] == WithZoneAdded(vs[vidx])
    ensures AllWellFormed(vs) ==> AllWellFormed(r)
  {
    if 0 <= vidx < |vs| then Replace(vs, vidx, WithZoneAdded(vs[vidx])) else vs
  }

  function RemoveZone(vs: seq<VendorEntry>, vidx: int, zidx: int): (r: seq<VendorEntry>)
    ensures |r| == |vs|
    ensures forall i :: 0 <= i < |vs| && i != vidx ==> r[i] == vs[i]
    ensures 0 <= vidx < |vs| ==> r[vidx] == WithZoneRemoved(vs[vidx], zidx)
    ensures AllWellFormed(vs) ==> AllWellFormed(r)
  {
    if 0 <= vidx < |vs| then Replace(vs, vidx, WithZoneRemoved(vs[vidx], zidx)) else vs
  }

  function UpdateZoneField(vs: seq<VendorEntry>, vidx: int, zidx: int, field: ZoneField, value: string): (r: seq<VendorEntry>)
    ensures |r| == |vs|
    ensures forall i :: 0 <= i < |vs| && i != vidx ==> r[i] == vs[i]
    ensures 0 <= vidx < |vs| ==> r[vidx] == WithZoneEdited(vs[vidx], zidx, field, value)
    ensures AllWellFormed(vs) ==> AllWellFormed(r)
  {
    if 0 <= vidx < |vs| then Replace(vs, vidx, WithZoneEdited(vs[vidx], zidx, field, value)) else vs
  }

  /**
   * `handleZonePincodesChange`: the formatted text is what gets stored, and
   * the zone turns 'partial' exactly when the typed text held a digit.
   * Nothing else in the list changes.
   */
  function HandleZonePincodesChange(vs: seq<VendorEntry>, vidx: int, zidx: int, raw: string): (r: seq<VendorEntry>)
    ensures |r| == |vs|
    ensures forall i :: 0 <= i < |vs| && i != vidx ==> r[i] == vs[i]
    ensures AllWellFormed(vs) ==> AllWellFormed(r)
    ensures 0 <= vidx < |vs| ==> var v, w := vs[vidx], r[vidx];
      && w.text == v.text && w.charges == v.charges && w.prices == v.prices
      && |w.zones| == |v.zones|
      && (forall j :: 0 <= j < |v.zones| && j != zidx ==> w.zones[j] == v.zones[j])
      && (0 <= zidx < |v.zones| ==>
            && w.zones[zidx].name == v.zones[zidx].name
            && w.zones[zidx].pincodes == FormatPincodes(raw)
            && w.zones[zidx].coverage == if Digits(raw) != "" then Partial else v.zones[zidx].coverage)
  {
    FormattedBlankIffNoDigit(raw);
    UpdateZoneField(vs, vidx, zidx, Pincodes, FormatPincodes(raw))
  }

  /** A formatted pincode list is blank exactly when the typed text has no digit. */
  lemma FormattedBlankIffNoDigit(raw: string)
    ensures IsBlank(FormatPincodes(raw)) <==> Digits(raw) == ""
  {
  }

  function ToggleCoverageCycle(vs: seq<VendorEntry>, vidx: int, zidx: int): (r: seq<VendorEntry>)
    ensures |r| == |vs|
    ensures forall i :: 0 <= i < |vs| && i != vidx ==> r[i] == vs[i]
    ensures 0 <= vidx < |vs| ==> r[vidx] == WithCoverageToggled(vs[vidx], zidx)
    ensures AllWellFormed(vs) ==> AllWellFormed(r)
  {
    if 0 <= vidx < |vs| then Replace(vs, vidx, WithCoverageToggled(vs[vidx], zidx)) else vs
  }

  function HandlePriceChange(vs: seq<VendorEntry>, vidx: int, row: int, col: int, value: string): (r: seq<VendorEntry>)
    ensures |r| == |vs|
    ensures forall i :: 0 <= i < |vs| && i != vidx ==> r[i] == vs[i]
    ensures 0 <= vidx < |vs| ==> r[vidx] == WithPrice(vs[vidx], row, col, value)
    ensures AllWellFormed(vs) ==> AllWellFormed(r)
  {
    if 0 <= vidx < |vs| then Replace(vs, vidx, WithPrice(vs[vidx], row, col, value)) else vs
  }

  // ---------------------------------------------------------------------------
  // Properties of the handlers

  /** Three clicks on a zone header bring its coverage back; nothing else in the list changes. */
  lemma ThreeTogglesRestoreCoverage(vs: seq<VendorEntry>, vidx: int, zidx: int)
    requires 0 <= vidx < |vs| && 0 <= zidx < |vs[vidx].zones|
    ensures var r := ToggleCoverageCycle(ToggleCoverageCycle(ToggleCoverageCycle(vs, vidx, zidx), vidx, zidx), vidx, zidx);
      && |r| == |vs|
      && (forall i :: 0 <= i < |vs| && i != vidx ==> r[i] == vs[i])
      && |r[vidx].zones| == |vs[vidx].zones|
      && r[vidx].zones[zidx].coverage == vs[vidx].zones[zidx].coverage
      && r[vidx].zones[zidx].name == vs[vidx].zones[zidx].name
      && (forall j :: 0 <= j < |vs[vidx].zones| && j != zidx ==> r[vidx].zones[j] == vs[vidx].zones[j])
      && r[vidx].prices == vs[vidx].prices
  {
    CoverageCycle(vs[vidx].zones[zidx].coverage);
  }

  /** For a square matrix, a cell edit changes that one cell, and only when it is inside the matrix. */
  lemma PriceChangeTouchesOneCell(vs: seq<VendorEntry>, vidx: int, row: int, col: int, value: string)
    requires 0 <= vidx < |vs| && Square(vs[vidx])
    ensures var v := vs[vidx]; var w := HandlePriceChange(vs, vidx, row, col, value)[vidx];
      && Square(w) && |w.zones| == |v.zones|
      && forall i, j :: 0 <= i < |v.zones| && 0 <= j < |v.zones| ==>
           w.prices[i][j] == if i == row && j == col then value else v.prices[i][j]
  {
  }

  /**
   * Deleting a zone of a square matrix: the remaining cells keep their
   * relative order, cell (i, j) of the result being the old cell at the
   * shifted row and column.
   */
  lemma RemoveZoneKeepsCells(vs: seq<VendorEntry>, vidx: int, zidx: int)
    requires 0 <= vidx < |vs| && Square(vs[vidx]) && 0 <= zidx < |vs[vidx].zones|
    ensures var v := vs[vidx]; var w := RemoveZone(vs, vidx, zidx)[vidx];
      && Square(w) && |w.zones| == |v.zones| - 1
      && (forall i :: 0 <= i < |w.zones| ==> w.zones[i] == v.zones[Shifted(i, zidx)])
      && forall i, j :: 0 <= i < |w.zones| && 0 <= j < |w.zones| ==>
           w.prices[i][j] == v.prices[Shifted(i, zidx)][Shifted(j, zidx)]
  {
    var v := vs[vidx];
    var w := RemoveZone(vs, vidx, zidx)[vidx];
    forall i, j | 0 <= i < |w.zones| && 0 <= j < |w.zones|
      ensures w.prices[i][j] == v.prices[Shifted(i, zidx)][Shifted(j, zidx)]
    {
      assert w.prices[i] == RemoveAt(v.prices[Shifted(i, zidx)], zidx);
    }
  }

  // ---------------------------------------------------------------------------
  // What "save all" sends for one vendor

  /** A zone takes part in the saved chart: its coverage is not 'none' and its name is not blank. */
  predicate IsActive(z: Zone) { z.coverage != Inactive && !IsBlank(z.name) }

  /** The positions from `i` on that hold `true`, in increasing order. */
  function TrueIndicesFrom(flags: seq<bool>, i: nat): (r: seq<nat>)
    requires i <= |flags|
    ensures forall a :: 0 <= a < |r| ==> i <= r[a] < |flags| && flags[r[a]]
    ensures forall a, b :: 0 <= a < b < |r| ==> r[a] < r[b]
    decreases |flags| - i
  {
    if i == |flags| then []
    else if flags[i] then [i] + TrueIndicesFrom(flags, i + 1)
    else TrueIndicesFrom(flags, i + 1)
  }

  /** Every position from `i` on that holds `true` is listed. */
  lemma {:induction false} TrueIndicesFromComplete(flags: seq<bool>, i: nat, j: nat)
    requires i <= j < |flags| && flags[j]
    ensures j in TrueIndicesFrom(flags, i)
    decreases |flags| - i
  {
    if i < j {
      TrueIndicesFromComplete(flags, i + 1, j);
    }
  }

  function ActivityFlags(zones: seq<Zone>): (f: seq<bool>)
    ensures |f| == |zones| && forall k :: 0 <= k < |f| ==> f[k] == IsActive(zones[k])
  {
    seq(|zones|, k requires 0 <= k < |zones| => IsActive(zones[k]))
  }

  /** `activeZoneIndices`: the active zones, in their original order. */
  function ActiveIndices(zones: seq<Zone>): (r: seq<nat>)
    ensures forall a :: 0 <= a < |r| ==> r[a] < |zones| && IsActive(zones[r[a]])
    ensures forall a, b :: 0 <= a < b < |r| ==> r[a] < r[b]
  {
    TrueIndicesFrom(ActivityFlags(zones), 0)
  }

  /** The listed indices are exactly the active zones. */
  lemma ActiveIndicesExact(zones: seq<Zone>, j: nat)
    ensures j in ActiveIndices(zones) <==> j < |zones| && IsActive(zones[j])
  {
    if j < |zones| && IsActive(zones[j]) {
      TrueIndicesFromComplete(ActivityFlags(zones), 0, j);
    }
  }

  /** `vendor.prices[ri]?.[ci] || '0'`: a missing or empty cell is sent as '0'. */
  function CellOrZero(prices: seq<seq<string>>, r: nat, c: nat): string {
    if r < |prices| && c < |prices[r]| && prices[r][c] != "" then prices[r][c] else "0"
  }

  /** The k x k matrix of the cells at rows and columns `idx`, missing or empty cells as '0'. */
  function Submatrix(prices: seq<seq<string>>, idx: seq<nat>): (m: seq<seq<string>>)
    ensures |m| == |idx|
    ensures forall a :: 0 <= a < |m| ==> |m[a]| == |idx|
    ensures forall a, b :: 0 <= a < |idx| && 0 <= b < |idx| ==> m[a][b] == CellOrZero(prices, idx[a], idx[b])
  {
    seq(|idx|, a requires 0 <= a < |idx| =>
      seq(|idx|, b requires 0 <= b < |idx| => CellOrZero(prices, idx[a], idx[b])))
  }

  /** `activePrices`: the sub-matrix over the active zones, in their original order. */
  function ActivePrices(v: VendorEntry): seq<seq<string>> {
    Submatrix(v.prices, ActiveIndices(v.zones))
  }

  /** On a square matrix every active cell exists, so only an empty one becomes '0'. */
  lemma ActivePricesOfSquare(v: VendorEntry)
    requires Square(v)
    ensures var idx := ActiveIndices(v.zones); var m := ActivePrices(v);
      forall a, b :: 0 <= a < |idx| && 0 <= b < |idx| ==>
        m[a][b] == if v.prices[idx[a]][idx[b]] == "" then "0" else v.prices[idx[a]][idx[b]]
  {
  }

  /** A zone of the saved price chart: its name and, for a 'partial' zone, its pincodes. */
  datatype ChartZone = ChartZone(name: string, pincodes: seq<string>)

  /** `z.pincodes.split(',').map(p => p.trim()).filter(Boolean)`. */
  function PincodeList(pincodes: string): (r: seq<string>)
    ensures forall i :: 0 <= i < |r| ==> r[i] != "" && ',' !in r[i]
  {
    SplitPiecesLackSeparator(pincodes, ',');
    NonEmptyTrimmed(Split(pincodes, ','))
  }

  function NonEmptyTrimmed(parts: seq<string>): (r: seq<string>)
    requires forall i :: 0 <= i < |parts| ==> ',' !in parts[i]
    ensures forall i :: 0 <= i < |r| ==> r[i] != "" && ',' !in r[i]
    ensures |r| <= |parts|
  {
    if parts == [] then []
    else
      var t := Trim(parts[0]);
      TrimKeepsCharacters(parts[0]);
      (if t == "" then [] else [t]) + NonEmptyTrimmed(parts[1..])
  }

  /** `priceChart`: one chart zone per active zone, in the order of the matrix rows. */
  function PriceChart(zones: seq<Zone>): (r: seq<ChartZone>)
    ensures var idx := ActiveIndices(zones);
      && |r| == |idx|
      && forall a :: 0 <= a < |r| ==>
           && r[a].name == zones[idx[a]].name
           && r[a].pincodes == (if zones[idx[a]].coverage == Partial then PincodeList(zones[idx[a]].pincodes) else [])
  {
    var idx := ActiveIndices(zones);
    seq(|idx|, a requires 0 <= a < |idx| =>
      var z := zones[idx[a]];
      ChartZone(z.name, if z.coverage == Partial then PincodeList(z.pincodes) else []))
  }

  /** The request body for one vendor: its details and charges, the chart and the active sub-matrix. */
  datatype Payload = Payload(
    customerID: string,
    details: map<TextField, string>,
    charges: map<ChargeKind, ChargePair>,
    priceChart: seq<ChartZone>,
    matrix: seq<seq<string>>)

  function Projection(v: VendorEntry, customerID: string): (p: Payload)
    ensures p.customerID == customerID
    ensures p.details == v.text && p.charges == v.charges
    ensures p.priceChart == PriceChart(v.zones)
    ensures |p.priceChart| == |p.matrix| == |ActiveIndices(v.zones)|
    ensures p.matrix == ActivePrices(v)
    ensures var idx := ActiveIndices(v.zones);
      forall a, b :: 0 <= a < |idx| && 0 <= b < |idx| ==>
        |p.matrix[a]| == |idx| && p.matrix[a][b] == CellOrZero(v.prices, idx[a], idx[b])
  {
    Payload(customerID, v.text, v.charges, PriceChart(v.zones), ActivePrices(v))
  }

  /** A vendor is sent only when its name and its code are not blank. */
  predicate Sendable(v: VendorEntry)
    requires Complete(v)
  {
    !IsBlank(v.text[VendorName]) && !IsBlank(v.text[VendorCode])
  }

  /** How the server answered the request for one vendor (the message it gave, if any). */
  datatype Response = Saved | Refused(serverMessage: Option<string>)

  /** The counters and the lists the save loop builds up. */
  datatype SaveSummary = SaveSummary(success: nat, failed: nat, errors: seq<string>, sent: seq<Payload>)

  const SkipLead := "Vendor \""
  const SkipReason := "\" skipped: Missing name or code."

  /** The error for a skipped vendor names it, or calls it "Unnamed" when its name is empty. */
  function SkipMessage(v: VendorEntry): (r: string)
    requires Complete(v)
    ensures var name := v.text[VendorName]; var shown := if name == "" then "Unnamed" else name;
      && |r| == |SkipLead| + |shown| + |SkipReason|
      && r[..|SkipLead|] == SkipLead
      && r[|SkipLead|..|SkipLead| + |shown|] == shown
      && EndsWith(r, SkipReason)
  {
    var name := v.text[VendorName];
    SkipLead + (if name == "" then "Unnamed" else name) + SkipReason
  }

  /** The error for a refused vendor: the server's message when it gave a non-empty one, else a text naming the vendor; never empty. */
  function RefusalMessage(v: VendorEntry, serverMessage: Option<string>): (r: string)
    requires Complete(v)
    ensures r != ""
    ensures serverMessage.Some? && serverMessage.value != "" ==> r == serverMessage.value
    ensures serverMessage.None? || serverMessage.value == "" ==>
      EndsWith(r, v.text[VendorName]) && r[..|r| - |v.text[VendorName]|] == "Failed to save "
  {
    if serverMessage.Some? && serverMessage.value != "" then serverMessage.value
    else "Failed to save " + v.text[VendorName]
  }

  /** One turn of the save loop. */
  function SaveStep(s: SaveSummary, v: VendorEntry, response: Response, customerID: string): SaveSummary
    requires Complete(v)
  {
    if !Sendable(v) then
      s.(failed := s.failed + 1, errors := s.errors + [SkipMessage(v)])
    else
      var sent := s.sent + [Projection(v, customerID)];
      match response
      case Saved => s.(success := s.success + 1, sent := sent)
      case Refused(m) => s.(failed := s.failed + 1, errors := s.errors + [RefusalMessage(v, m)], sent := sent)
  }

  /** The summary after the loop has visited all of `vs`; `responses[i]` answers the request for `vs[i]`. */
  function SaveRun(vs: seq<VendorEntry>, responses: seq<Response>, customerID: string): SaveSummary
    requires |responses| == |vs| && AllWellFormed(vs)
    decreases |vs|
  {
    if vs == [] then SaveSummary(0, 0, [], [])
    else
      var n := |vs| - 1;
      SaveStep(SaveRun(vs[..n], responses[..n], customerID), vs[n], responses[n], customerID)
  }

  /** One more turn of the loop extends the run by one vendor. */
  lemma SaveRunSnoc(vs: seq<VendorEntry>, responses: seq<Response>, customerID: string, i: nat)
    requires |responses| == |vs| && AllWellFormed(vs) && i < |vs|
    ensures AllWellFormed(vs[..i]) && AllWellFormed(vs[..i + 1])
    ensures SaveRun(vs[..i + 1], responses[..i + 1], customerID)
      == SaveStep(SaveRun(vs[..i], responses[..i], customerID), vs[i], responses[i], customerID)
  {
    var prefix := vs[..i + 1];
    assert prefix[..i] == vs[..i] && prefix[i] == vs[i];
    assert responses[..i + 1][..i] == responses[..i];
  }

  /** The number of vendors the loop sends. */
  function CountSendable(vs: seq<VendorEntry>): nat
    requires AllWellFormed(vs)
  {
    if vs == [] then 0 else CountSendable(vs[..|vs| - 1]) + (if Sendable(vs[|vs| - 1]) then 1 else 0)
  }

  /**
   * Every vendor is counted once, as a success or a failure; every failure
   * has its error text; exactly the vendors with a name and a code are sent,
   * in list order, each as its projection.
   */
  lemma {:induction false} SaveRunAccounts(vs: seq<VendorEntry>, responses: seq<Response>, customerID: string)
    requires |responses| == |vs| && AllWellFormed(vs)
    ensures var s := SaveRun(vs, responses, customerID);
      && s.success + s.failed == |vs|
      && |s.errors| == s.failed
      && |s.sent| == CountSendable(vs)
      && s.success <= |s.sent|
      && |s.sent| - s.success + (|vs| - CountSendable(vs)) == s.failed
    decreases |vs|
  {
    if vs != [] {
      var n := |vs| - 1;
      SaveRunAccounts(vs[..n], responses[..n], customerID);
      var prev := SaveRun(vs[..n], responses[..n], customerID);
      assert SaveRun(vs, responses, customerID) == SaveStep(prev, vs[n], responses[n], customerID);
      SaveStepCounts(prev, vs[n], responses[n], customerID);
      assert CountSendable(vs) == CountSendable(vs[..n]) + (if Sendable(vs[n]) then 1 else 0);
    }
  }

  /** One turn counts one vendor, adds an error exactly with a failure, and succeeds only on a send. */
  lemma SaveStepCounts(s: SaveSummary, v: VendorEntry, response: Response, customerID: string)
    requires Complete(v)
    ensures var t := SaveStep(s, v, response, customerID);
      && t.success + t.failed == s.success + s.failed + 1
      && |t.errors| - t.failed == |s.errors| - s.failed
      && |t.sent| == |s.sent| + (if Sendable(v) then 1 else 0)
      && t.success - |t.sent| <= s.success - |s.sent|
  {
  }

  /** The requests of the save loop: the projections of the vendors with a name and a code, in order. */
  function SendList(vs: seq<VendorEntry>, customerID: string): (r: seq<Payload>)
    requires AllWellFormed(vs)
    ensures |r| == CountSendable(vs)
  {
    if vs == [] then []
    else
      var n := |vs| - 1;
      SendList(vs[..n], customerID) + (if Sendable(vs[n]) then [Projection(vs[n], customerID)] else [])
  }

  /** What is sent does not depend on how the server answers. */
  lemma {:induction false} SaveRunSends(vs: seq<VendorEntry>, responses: seq<Response>, customerID: string)
    requires |responses| == |vs| && AllWellFormed(vs)
    ensures SaveRun(vs, responses, customerID).sent == SendList(vs, customerID)
    decreases |vs|
  {
    if vs != [] {
      var n := |vs| - 1;
      SaveRunSends(vs[..n], responses[..n], customerID);
    }
  }

  /**
   * The loop of `handleSaveAll`: the vendors are visited in order and the
   * counters and lists grow turn by turn; the result is the run of the whole
   * list.
   */
  method RunSaveLoop(vs: seq<VendorEntry>, responses: seq<Response>, customerID: string) returns (summary: SaveSummary)
    requires |responses| == |vs| && AllWellFormed(vs)
    ensures summary == SaveRun(vs, responses, customerID)
  {
    summary := SaveSummary(0, 0, [], []);
    for i := 0 to |vs|
      invariant AllWellFormed(vs[..i])
      invariant summary == SaveRun(vs[..i], responses[..i], customerID)
    {
      SaveRunSnoc(vs, responses, customerID, i);
      summary := SaveStep(summary, vs[i], responses[i], customerID);
    }
    assert vs[..|vs|] == vs;
    assert responses[..|vs|] == responses;
  }

  const FailedLead := "\U{274C} Failed to save "
  const SavedLead := "\U{2705} Successfully saved "

  /** The error banner: the number of failures, written in decimal after its lead, then every error text joined by ". ". */
  function ErrorBanner(failed: nat, errors: seq<string>): (r: string)
    ensures var k := |FailedLead|; var n := |NatToString(failed)|;
      && |r| >= k + n
      && r[..k] == FailedLead
      && AllDigits(r[k..k + n]) && DecimalValue(r[k..k + n]) == failed
      && EndsWith(r, Join(errors, ". "))
  {
    var count := NatToString(failed);
    var r := FailedLead + count + " vendor(s). Errors: " + Join(errors, ". ");
    DecimalValueOfNatToString(failed);
    assert r[|FailedLead|..|FailedLead| + |count|] == count;
    r
  }

  /** The success banner: the number of saved vendors, written in decimal after its lead. */
  function SuccessBanner(success: nat): (r: string)
    ensures var k := |SavedLead|; var n := |NatToString(success)|;
      && |r| >= k + n
      && r[..k] == SavedLead
      && AllDigits(r[k..k + n]) && DecimalValue(r[k..k + n]) == success
      && EndsWith(r, " vendor(s).")
  {
    var count := NatToString(success);
    var r := SavedLead + count + " vendor(s).";
    DecimalValueOfNatToString(success);
    assert r[|SavedLead|..|SavedLead| + |count|] == count;
    r
  }

  /** The state of the page around the vendor list: the confirmation box, the busy flag and the banners. */
  class VendorEditor {
    var vendors: seq<VendorEntry>
    var agree: bool
    var loading: bool
    var message: Option<string>
    var error: Option<string>

    ghost predicate Valid()
      reads this
    {
      AllWellFormed(vendors)
    }

    /** The page as it opens: one initial vendor, box unchecked, no banner. */
    constructor ()
      ensures Valid()
      ensures vendors == [InitialVendorState()] && !agree && !loading
      ensures message == None && error == None
    {
      vendors := [InitialVendorState()];
      agree, loading := false, false;
      message, error := None, None;
    }

    /**
     * `handleSaveAll` up to the first request.  Does nothing unless the box
     * is checked and no save is running.  Otherwise both banners are cleared,
     * saving starts, and the list the loop will walk is returned: later edits
     * of the list do not change that run.
     */
    method BeginSaveAll() returns (batch: Option<seq<VendorEntry>>)
      requires Valid()
      modifies this`loading, this`message, this`error
      ensures !old(agree) || old(loading) ==>
        batch == None && loading == old(loading) && message == old(message) && error == old(error)
      ensures old(agree) && !old(loading) ==>
        batch == Some(vendors) && loading && message == None && error == None
      ensures batch.Some? ==> AllWellFormed(batch.value)
    {
      if !agree || loading {
        return None;
      }
      error, message := None, None;
      loading := true;
      batch := Some(vendors);
    }

    /**
     * The rest of `handleSaveAll`, once every request has been answered.  The
     * loop visits `batch` in order: a vendor without a name or code counts as
     * failed with its own message; every other one is sent and the answer
     * `responses[i]` decides whether it counts as saved.  Then saving stops
     * and each banner shows when its count is positive.  Returns the requests
     * sent, in order.  Without a signed-in customer the payload of the first
     * vendor to send cannot be built: the handler stops there, nothing is
     * sent and the page stays saving.
     */
    method FinishSaveAll(batch: seq<VendorEntry>, customerID: Option<string>, responses: seq<Response>)
      returns (sent: seq<Payload>)
      requires AllWellFormed(batch) && |responses| == |batch|
      modifies this`loading, this`message, this`error
      ensures customerID.None? && CountSendable(batch) > 0 ==>
        sent == [] && loading == old(loading) && message == old(message) && error == old(error)
      ensures customerID.Some? || CountSendable(batch) == 0 ==>
        var s := SaveRun(batch, responses, if customerID.Some? then customerID.value else "");
        && sent == s.sent
        && !loading
        && error == (if s.failed > 0 then Some(ErrorBanner(s.failed, s.errors)) else old(error))
        && message == (if s.success > 0 then Some(SuccessBanner(s.success)) else old(message))
    {
      if customerID.None? && CountSendable(batch) > 0 {
        return [];
      }
      var summary := RunSaveLoop(batch, responses, if customerID.Some? then customerID.value else "");
      sent := summary.sent;
      loading := false;
      if summary.failed > 0 {
        error := Some(ErrorBanner(summary.failed, summary.errors));
      }
      if summary.success > 0 {
        message := Some(SuccessBanner(summary.success));
      }
    }

    /** The confirmation checkbox. */
    method SetAgree(checked: bool)
      modifies this`agree
      ensures agree == checked
    {
      agree := checked;
    }

    /** Replaces the vendor list by the result of one of the edit handlers above. */
    method UpdateVendors(next: seq<VendorEntry>)
      requires AllWellFormed(next)
      modifies this`vendors
      ensures Valid() && vendors == next
    {
      vendors := next;
    }
  }
}
