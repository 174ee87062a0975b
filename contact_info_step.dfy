/** The first screen of the wizard: the operator's name and phone number. */
module ContactInfo {
  import opened Outcomes
  import opened Text

  /** What the screen hands to `onNext`. */
  datatype ContactData = ContactData(name: string, phoneNumber: string)

  /** The initial state cells: `initialData?.name || ''` and likewise for the phone number.
      The `||` fallback only fires on `''`, so it is the same as taking `initialData` as is. */
  function Seed(initialData: Option<ContactData>): (c: ContactData)
    ensures initialData.None? ==> c == ContactData("", "")
    ensures initialData.Some? ==> c == initialData.value
  {
    var name := if initialData.Some? && initialData.value.name != "" then initialData.value.name else "";
    var phoneNumber :=
      if initialData.Some? && initialData.value.phoneNumber != "" then initialData.value.phoneNumber else "";
    ContactData(name, phoneNumber)
  }

  /** The gate of `handleSubmit`: reject when either field is empty after trimming;
      otherwise pass both fields on exactly as typed, surrounding whitespace included. */
  function Validate(name: string, phoneNumber: string): (r: Result<ContactData, ValidationError>)
    ensures r.Ok? <==> HasVisibleChar(name) && HasVisibleChar(phoneNumber)
    ensures r.Ok? ==> r.value == ContactData(name, phoneNumber)
    ensures r.Err? ==> r.error == BlankContactField
  {
    if Trim(name) == "" || Trim(phoneNumber) == "" then Err(BlankContactField)
    else Ok(ContactData(name, phoneNumber))
  }

  /** The component's two state cells and their handlers. */
  class ContactInfoForm {
    var name: string
    var phoneNumber: string

    constructor (initialData: Option<ContactData>)
      ensures ContactData(name, phoneNumber) == Seed(initialData)
    {
      var seed := Seed(initialData);
      name := seed.name;
      phoneNumber := seed.phoneNumber;
    }

    /** The name input's `onChange`. */
    method SetName(value: string)
      modifies this
      ensures name == value && phoneNumber == old(phoneNumber)
    {
      name := value;
    }

    /** The phone input's `onChange`. */
    method SetPhoneNumber(value: string)
      modifies this
      ensures phoneNumber == value && name == old(name)
    {
      phoneNumber := value;
    }

    /** `handleSubmit`: what reaches `onNext`, or the rejection; the cells stay as they are. */
    method Submit() returns (r: Result<ContactData, ValidationError>)
      ensures r == Validate(name, phoneNumber)
    {
      if Trim(name) == "" || Trim(phoneNumber) == "" {
        r := Err(BlankContactField);
      } else {
        r := Ok(ContactData(name, phoneNumber));
      }
    }
  }
}
