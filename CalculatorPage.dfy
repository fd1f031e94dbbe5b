/**
 * The freight calculator page (src/pages/CalculatorPage.tsx).
 *
 * The page collects a route (two pincodes and a mode of transport) and the
 * shipment's measurements, checks them, asks the server for quotes and
 * shows the answer in the quote table.  The class `Calculator` has the
 * page's state; `CalculateQuotes` is the part of `calculateQuotes` up to the
 * request and `SettleQuotes` the part after the answer.
 */
module CalculatorPage {
  import opened JsText
  import VendorTable

  /** A number input's `valueAsNumber`: not yet set, NaN (an empty or invalid input), or a number. */
  datatype JsNumber = Undefined | NaN | Num(value: real)

  datatype Mode = Road | Rail | Air | Ship

  /** `!n` for a measurement: it is missing when undefined, NaN or 0. */
  predicate Missing(n: JsNumber) {
    n.Undefined? || n.NaN? || (n.Num? && n.value == 0.0)
  }

  const PincodeError := "Please enter valid 6-digit Origin and Destination Pincodes."
  const FieldsError := "Please fill in all shipment detail fields."
  const CalculationError := "Failed to calculate quotes. Please check your inputs and try again."

  /** The six measurements, in the order the page checks them. */
  datatype Shipment = Shipment(
    noofboxes: JsNumber, quantity: JsNumber, length: JsNumber,
    width: JsNumber, height: JsNumber, weightperbox: JsNumber)

  predicate AnyMissing(s: Shipment) {
    Missing(s.noofboxes) || Missing(s.quantity) || Missing(s.length)
    || Missing(s.width) || Missing(s.height) || Missing(s.weightperbox)
  }

  /**
   * The checks of `calculateQuotes`, in order: both pincodes must be six
   * digits, then every measurement must be present; the first failing check
   * gives the error.
   */
  function InputError(fromPincode: string, toPincode: string, s: Shipment): (e: Option<string>)
    ensures e.None? <==> IsSixDigits(fromPincode) && IsSixDigits(toPincode) && !AnyMissing(s)
    ensures !IsSixDigits(fromPincode) || !IsSixDigits(toPincode) ==> e == Some(PincodeError)
    ensures IsSixDigits(fromPincode) && IsSixDigits(toPincode) && AnyMissing(s) ==> e == Some(FieldsError)
  {
    if !IsSixDigits(fromPincode) || !IsSixDigits(toPincode) then Some(PincodeError)
    else if AnyMissing(s) then Some(FieldsError)
    else None
  }

  /** When the checks pass, every measurement is a non-zero number. */
  lemma AcceptedShipmentIsNumeric(fromPincode: string, toPincode: string, s: Shipment)
    requires InputError(fromPincode, toPincode, s).None?
    ensures s.noofboxes.Num? && s.quantity.Num? && s.length.Num?
    ensures s.width.Num? && s.height.Num? && s.weightperbox.Num?
    ensures s.noofboxes.value != 0.0 && s.quantity.value != 0.0 && s.weightperbox.value != 0.0
    ensures |fromPincode| == 6 && |toPincode| == 6
  {
  }

  /**
   * The read-only total quantity, `(quantity ?? 0) * (noofboxes ?? 0) || ''`:
   * an absent value counts as 0, NaN stays NaN, and a product that is 0 or
   * NaN shows as an empty field (`None`).
   */
  function TotalQuantity(quantity: JsNumber, noofboxes: JsNumber): (shown: Option<real>)
    ensures shown.Some? <==> !Missing(quantity) && !Missing(noofboxes)
    ensures shown.Some? ==> shown.value == quantity.value * noofboxes.value
    ensures quantity.Num? && noofboxes.Num? ==>
      shown == if quantity.value * noofboxes.value == 0.0 then None else Some(quantity.value * noofboxes.value)
    ensures quantity.NaN? || noofboxes.NaN? || quantity.Undefined? || noofboxes.Undefined? ==> shown == None
  {
    if quantity.Num? && noofboxes.Num? then
      var product := quantity.value * noofboxes.value;
      if product == 0.0 then None else Some(product)
    else
      // a NaN factor makes the product NaN; an absent one counts as 0, and so does the product
      None
  }

  /** The signed-in customer, as far as the request needs it. */
  datatype CustomerRef = CustomerRef(id: string, pincode: string)

  /** The body of the calculation request. */
  datatype QuoteRequest = QuoteRequest(
    customerID: string, userPincode: string, mode: Mode,
    fromPincode: string, toPincode: string,
    noofboxes: real, quantity: real, length: real, width: real, height: real, weight: real)

  /** How the request ended: the two lists the server answered with, or a failure. */
  datatype QuoteOutcome = Answered(tiedUpResult: Option<seq<VendorTable.Quote>>, companyResult: Option<seq<VendorTable.Quote>>) | Failed

  class Calculator {
    var isCalculating: bool
    var error: Option<string>
    var data: Option<seq<VendorTable.Quote>>
    var hiddendata: Option<seq<VendorTable.Quote>>
    var modeOfTransport: Mode
    var fromPincode: string
    var toPincode: string
    var noofboxes: JsNumber
    var quantity: JsNumber
    var length: JsNumber
    var width: JsNumber
    var height: JsNumber
    var weightperbox: JsNumber

    function Inputs(): Shipment
      reads this
    {
      Shipment(noofboxes, quantity, length, width, height, weightperbox)
    }

    constructor ()
      ensures !isCalculating && error == None && data == None && hiddendata == None
      ensures modeOfTransport == Road && fromPincode == "" && toPincode == ""
      ensures Inputs() == Shipment(Undefined, Undefined, Undefined, Undefined, Undefined, Undefined)
    {
      isCalculating, error, data, hiddendata := false, None, None, None;
      modeOfTransport, fromPincode, toPincode := Road, "", "";
      noofboxes, quantity, length, width, height, weightperbox := Undefined, Undefined, Undefined, Undefined, Undefined, Undefined;
    }

    /** The results section is on the page exactly when one of the two lists is there. */
    predicate ResultsShown()
      reads this
    {
      data.Some? || hiddendata.Some?
    }

    /**
     * `calculateQuotes` up to the request.  The error is cleared first; a bad
     * pincode, then a missing measurement, sets its error and sends nothing.
     * Otherwise calculating starts and the request goes out; without a
     * signed-in customer building the request fails, which the page reports
     * as a failed calculation, and calculating stops at once.
     */
    method CalculateQuotes(customer: Option<CustomerRef>) returns (request: Option<QuoteRequest>)
      modifies this
      ensures InputError(old(fromPincode), old(toPincode), old(Inputs())).Some? ==>
        request == None && error == InputError(old(fromPincode), old(toPincode), old(Inputs()))
        && isCalculating == old(isCalculating)
      ensures InputError(old(fromPincode), old(toPincode), old(Inputs())).None? && customer.None? ==>
        request == None && error == Some(CalculationError) && !isCalculating
      ensures InputError(old(fromPincode), old(toPincode), old(Inputs())).None? && customer.Some? ==>
        && request == Some(QuoteRequest(customer.value.id, customer.value.pincode, old(modeOfTransport),
             old(fromPincode), old(toPincode), old(noofboxes.value), old(quantity.value), old(length.value),
             old(width.value), old(height.value), old(weightperbox.value)))
        && error == None && isCalculating
      ensures data == old(data) && hiddendata == old(hiddendata) && modeOfTransport == old(modeOfTransport)
      ensures fromPincode == old(fromPincode) && toPincode == old(toPincode) && Inputs() == old(Inputs())
    {
      error := None;
      if !IsSixDigits(fromPincode) || !IsSixDigits(toPincode) {
        error := Some(PincodeError);
        return None;
      }
      if Missing(noofboxes) || Missing(quantity) || Missing(length) || Missing(width) || Missing(height) || Missing(weightperbox) {
        error := Some(FieldsError);
        return None;
      }
      isCalculating := true;
      if customer.None? {
        error := Some(CalculationError);
        isCalculating := false;
        return None;
      }
      request := Some(QuoteRequest(customer.value.id, customer.value.pincode, modeOfTransport,
        fromPincode, toPincode, noofboxes.value, quantity.value, length.value, width.value, height.value, weightperbox.value));
    }

    /** The end of `calculateQuotes`: the lists are stored, or the failure is reported; calculating stops. */
    method SettleQuotes(outcome: QuoteOutcome)
      modifies this
      ensures !isCalculating
      ensures outcome.Answered? ==>
        data == outcome.tiedUpResult && hiddendata == outcome.companyResult && error == old(error)
      ensures outcome.Failed? ==> data == old(data) && hiddendata == old(hiddendata) && error == Some(CalculationError)
      ensures modeOfTransport == old(modeOfTransport)
      ensures fromPincode == old(fromPincode) && toPincode == old(toPincode) && Inputs() == old(Inputs())
    {
      if outcome.Answered? {
        data := outcome.tiedUpResult;
        hiddendata := outcome.companyResult;
      } else {
        error := Some(CalculationError);
      }
      isCalculating := false;
    }
  }
}
