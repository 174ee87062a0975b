/** The second screen of the wizard: the hotel's name, size bracket and location. */
module HotelDetails {
  import opened Outcomes
  import opened Text

  /** What the screen hands to `onNext`. */
  datatype HotelData = HotelData(hotelName: string, hotelSize: string, hotelLocation: string)

  /** The `value`s of the size `<select>`: the disabled placeholder first, then the three brackets. */
  const SizeOptions: seq<string> := ["", "small", "medium", "large"]

  /** The initial state cells: `initialData?.field || ''` for each of the three fields. */
  function Seed(initialData: Option<HotelData>): (h: HotelData)
    ensures initialData.None? ==> h == HotelData("", "", "")
    ensures initialData.Some? ==> h == initialData.value
  {
    match initialData
    case None => HotelData("", "", "")
    case Some(d) =>
      HotelData(if d.hotelName != "" then d.hotelName else "",
                if d.hotelSize != "" then d.hotelSize else "",
                if d.hotelLocation != "" then d.hotelLocation else "")
  }

  /** The gate of `handleSubmit`: reject when any field is empty after trimming; otherwise
      pass the three fields on exactly as held. */
  function Validate(hotelName: string, hotelSize: string, hotelLocation: string): (r: Result<HotelData, ValidationError>)
    ensures r.Ok? <==> HasVisibleChar(hotelName) && HasVisibleChar(hotelSize) && HasVisibleChar(hotelLocation)
    ensures r.Ok? ==> r.value == HotelData(hotelName, hotelSize, hotelLocation)
    ensures r.Err? ==> r.error == BlankHotelField
  {
    if Trim(hotelName) == "" || Trim(hotelSize) == "" || Trim(hotelLocation) == "" then Err(BlankHotelField)
    else Ok(HotelData(hotelName, hotelSize, hotelLocation))
  }

  /** Of the size options, exactly the placeholder fails the gate: with a name and a location
      given, the form goes through for a chosen bracket and is rejected while none is chosen. */
  lemma SizeOptionGate(i: nat, hotelName: string, hotelLocation: string)
    requires i < |SizeOptions|
    requires HasVisibleChar(hotelName) && HasVisibleChar(hotelLocation)
    ensures Validate(hotelName, SizeOptions[i], hotelLocation).Ok? <==> i != 0
  {
    if i != 0 {
      assert !IsWhitespace(SizeOptions[i][0]);
    }
  }

  /** The component's three state cells and their handlers. */
  class HotelDetailsForm {
    var hotelName: string
    var hotelSize: string
    var hotelLocation: string

    constructor (initialData: Option<HotelData>)
      ensures HotelData(hotelName, hotelSize, hotelLocation) == Seed(initialData)
    {
      var seed := Seed(initialData);
      hotelName := seed.hotelName;
      hotelSize := seed.hotelSize;
      hotelLocation := seed.hotelLocation;
    }

    /** The name input's `onChange`. */
    method SetHotelName(value: string)
      modifies this
      ensures hotelName == value
      ensures hotelSize == old(hotelSize) && hotelLocation == old(hotelLocation)
    {
      hotelName := value;
    }

    /** The size `<select>`'s `onChange`. */
    method SetHotelSize(value: string)
      modifies this
      ensures hotelSize == value
      ensures hotelName == old(hotelName) && hotelLocation == old(hotelLocation)
    {
      hotelSize := value;
    }

    /** The location input's `onChange`. */
    method SetHotelLocation(value: string)
      modifies this
      ensures hotelLocation == value
      ensures hotelName == old(hotelName) && hotelSize == old(hotelSize)
    {
      hotelLocation := value;
    }

    /** `handleSubmit`: what reaches `onNext`, or the rejection; the cells stay as they are. */
    method Submit() returns (r: Result<HotelData, ValidationError>)
      ensures r == Validate(hotelName, hotelSize, hotelLocation)
    {
      if Trim(hotelName) == "" || Trim(hotelSize) == "" || Trim(hotelLocation) == "" {
        r := Err(BlankHotelField);
      } else {
        r := Ok(HotelData(hotelName, hotelSize, hotelLocation));
      }
    }
  }
}
