/**
 * The request handler's reading of the posted form into a `Trip`, and the
 * fare it then quotes. Parsing the distance text is outside the model: the
 * handler sees its outcome, a number or `None` for text that is not a
 * well-formed number.
 */
module Form {
  import opened Fare

  datatype Option<T> = None | Some(value: T)

  /** The value a checkbox posts when it is ticked (the page's checkboxes carry no value of their own). */
  const CheckboxOn: string := "on"

  /** The tariffs offered by the page's drop-down list, in the order shown. */
  const TariffOptions: seq<string> := ["econom", "standart", "dorogoi", "premium", "o4en_dorogoi"]

  /**
   * The form fields as the handler reads them: the outcome of parsing the
   * distance text, and the raw tariff and checkbox values (an absent field
   * reads as the empty string).
   */
  datatype FormValues = FormValues(
    distance: Option<real>,
    tariff: string,
    childSeat: string,
    trunk: string,
    district: string)

  /**
   * The trip the handler builds from the form fields: each box is ticked
   * exactly when its value is "on", the tariff is taken as posted, and a
   * distance that is not a well-formed number reads as 0.
   */
  function Decode(f: FormValues): (t: Trip)
    ensures t.hasChildSeat <==> f.childSeat == "on"
    ensures t.hasTrunk <==> f.trunk == "on"
    ensures t.isDifferentDistrict <==> f.district == "on"
    ensures t.tariff == f.tariff
    ensures f.distance.Some? ==> t.distance == f.distance.value
    ensures f.distance.None? ==> t.distance == 0.0
  {
    Trip(
      distance := if f.distance.Some? then f.distance.value else 0.0,
      hasChildSeat := f.childSeat == CheckboxOn,
      hasTrunk := f.trunk == CheckboxOn,
      isDifferentDistrict := f.district == CheckboxOn,
      tariff := f.tariff)
  }

  /**
   * The fields the page's form posts for a trip: the distance as typed, the
   * chosen tariff, and "on" for a ticked box and nothing for a clear one.
   * Decoding them gives the trip back.
   */
  function Submit(t: Trip): (f: FormValues)
    ensures Decode(f) == t
  {
    FormValues(
      Some(t.distance),
      t.tariff,
      if t.hasChildSeat then CheckboxOn else "",
      if t.hasTrunk then CheckboxOn else "",
      if t.isDifferentDistrict then CheckboxOn else "")
  }

  /**
   * Fields of the shape `Submit` produces: a parsed distance and each box
   * either "on" or empty. `SubmitDecode` shows these are exactly the fields
   * `Submit` produces for some trip.
   */
  predicate IsSubmitted(f: FormValues)
  {
    && f.distance.Some?
    && f.childSeat in {CheckboxOn, ""}
    && f.trunk in {CheckboxOn, ""}
    && f.district in {CheckboxOn, ""}
  }

  /**
   * The handler's work on a POST: decode the fields, then compute the fare
   * (the formatting of the reply is outside the model).
   */
  method Quote(f: FormValues) returns (cost: real)
    ensures cost == Cost(Decode(f))
    ensures f.distance.None? ==> cost == Cost(Decode(f.(distance := Some(0.0))))
  {
    var trip := Decode(f);
    cost := CalculateCost(trip);
  }

  /** A distance that is not a well-formed number gives the same trip, and so the same fare, as a distance of 0. */
  lemma MalformedDistanceIsZero(f: FormValues)
    requires f.distance.None?
    ensures Decode(f) == Decode(f.(distance := Some(0.0)))
    ensures Cost(Decode(f)) == Cost(Decode(f.(distance := Some(0.0))))
    ensures Cost(Decode(f)) >= BaseCost
  {
    CostAtLeastBase(Decode(f));
  }

  /**
   * Re-encoding the decoded fields gives them back exactly when they have
   * the shape `Submit` produces, and that shape holds exactly of the fields
   * `Submit` produces for some trip.
   */
  lemma SubmitDecode(f: FormValues)
    ensures Submit(Decode(f)) == f <==> IsSubmitted(f)
    ensures IsSubmitted(f) <==> exists t: Trip :: Submit(t) == f
  {
    if IsSubmitted(f) {
      assert Submit(Decode(f)) == f;
    }
  }

  /** The page offers exactly the tariffs of the table, so a tariff chosen on the page is never unknown. */
  lemma TariffOptionsAreTable()
    ensures (set k | k in TariffOptions) == TariffMultipliers.Keys
    ensures forall i :: 0 <= i < |TariffOptions| ==> TariffOptions[i] in TariffMultipliers
  {
  }
}
