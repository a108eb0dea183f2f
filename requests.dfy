/**
 * The shipment request the intake form produces: a dictionary of ten
 * entries, kept here as a sequence of (key, value) pairs in the order the
 * dictionary literal inserts them.
 */
module Requests {
  import Decimal

  /** The values the form's widgets yield. Floats are kept as already-rendered text. */
  datatype Value = Int(i: int) | Float(shown: string) | Str(s: string)

  /** How an f-string shows a value. */
  function Render(v: Value): (r: string)
    ensures v.Int? ==> r == Decimal.IntToString(v.i)
    ensures v.Float? ==> r == v.shown
    ensures v.Str? ==> r == v.s
  {
    match v
    case Int(i) => Decimal.IntToString(i)
    case Float(shown) => shown
    case Str(s) => s
  }

  /** The two select-box choices for the weight unit and their option text. */
  datatype WeightUnit = Lbs | Kg {
    function Name(): string {
      match this
      case Lbs => "lbs"
      case Kg => "kg"
    }
  }

  /** The two select-box choices for the dimension unit and their option text. */
  datatype DimensionUnit = In | Cm {
    function Name(): string {
      match this
      case In => "in"
      case Cm => "cm"
    }
  }

  /** What the intake form holds when "Submit Request" is pressed. */
  datatype ShipmentForm = ShipmentForm(
    boxesNumber: int,
    weight: string,
    height: string,
    width: string,
    length: string,
    cargoType: string,
    weightUnit: WeightUnit,
    dimensionUnit: DimensionUnit,
    airportZipcodeLoading: string,
    airportZipcodeDischarge: string)

  /** The widgets' lower bound: at least one box. The decimal fields are already rendered. */
  predicate WidgetBounds(form: ShipmentForm) {
    form.boxesNumber >= 1
  }

  type RequestData = seq<(string, Value)>

  /** The keys of the request dictionary, in insertion order, with their wire spelling. */
  const RequestKeys: seq<string> := [
    "boxes_number", "weight", "height", "width", "length", "cargo_type",
    "weightUnit", "dimensionunit", "airport_zipcode_loading", "airport_zipcode_discharge"]

  function Keys(request: RequestData): (ks: seq<string>)
    ensures |ks| == |request|
    ensures forall i :: 0 <= i < |request| ==> ks[i] == request[i].0
  {
    seq(|request|, i requires 0 <= i < |request| => request[i].0)
  }

  /** The dictionary the submit handler builds from the form, entry by entry. */
  function RequestDataOf(form: ShipmentForm): (request: RequestData)
    ensures Keys(request) == RequestKeys
    ensures request[0].1 == Int(form.boxesNumber)
    ensures request[1].1 == Float(form.weight)
    ensures request[2].1 == Float(form.height)
    ensures request[3].1 == Float(form.width)
    ensures request[4].1 == Float(form.length)
    ensures request[5].1 == Str(form.cargoType)
    ensures request[6].1 == Str(form.weightUnit.Name())
    ensures request[7].1 == Str(form.dimensionUnit.Name())
    ensures request[8].1 == Str(form.airportZipcodeLoading)
    ensures request[9].1 == Str(form.airportZipcodeDischarge)
  {
    [ ("boxes_number", Int(form.boxesNumber)),
      ("weight", Float(form.weight)),
      ("height", Float(form.height)),
      ("width", Float(form.width)),
      ("length", Float(form.length)),
      ("cargo_type", Str(form.cargoType)),
      ("weightUnit", Str(form.weightUnit.Name())),
      ("dimensionunit", Str(form.dimensionUnit.Name())),
      ("airport_zipcode_loading", Str(form.airportZipcodeLoading)),
      ("airport_zipcode_discharge", Str(form.airportZipcodeDischarge)) ]
  }

  /** The ten keys are distinct, so each names exactly one entry of the dictionary. */
  lemma RequestKeysDistinct()
    ensures forall i, j :: 0 <= i < j < |RequestKeys| ==> RequestKeys[i] != RequestKeys[j]
  {
  }

  /** The request never depends on anything but the form: two forms give the same request only if they agree. */
  lemma RequestDataOfInjective(f: ShipmentForm, g: ShipmentForm)
    requires RequestDataOf(f) == RequestDataOf(g)
    ensures f == g
  {
    var rf, rg := RequestDataOf(f), RequestDataOf(g);
    assert rf[6].1 == rg[6].1;
    assert rf[7].1 == rg[7].1;
  }
}
