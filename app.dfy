/** The wizard itself: which screen is shown, the record the screens submit into, and the
    header text for each screen. */
module App {
  import opened Outcomes
  import opened Hours
  import ContactInfo
  import HotelDetails
  import ReceptionHours

  /** `formData`: what the three screens have submitted so far. */
  datatype FormData = FormData(
    name: string, phoneNumber: string,
    hotelName: string, hotelSize: string, hotelLocation: string,
    totalRooms: int, receptionOperatingHours: OperatingHours, description: string)

  /** The part of the record the contact screen writes. */
  function ContactOf(d: FormData): ContactInfo.ContactData {
    ContactInfo.ContactData(d.name, d.phoneNumber)
  }

  /** The part of the record the hotel screen writes and is seeded from. */
  function HotelOf(d: FormData): HotelDetails.HotelData {
    HotelDetails.HotelData(d.hotelName, d.hotelSize, d.hotelLocation)
  }

  /** The part of the record the reception screen writes and is seeded from. */
  function ReceptionOf(d: FormData): ReceptionHours.ReceptionData {
    ReceptionHours.ReceptionData(d.totalRooms, d.receptionOperatingHours, d.description)
  }

  /** The three parts cover the record: two records with equal parts are equal. */
  lemma PartsDetermineRecord(a: FormData, b: FormData)
    ensures a == b <==> ContactOf(a) == ContactOf(b) && HotelOf(a) == HotelOf(b) && ReceptionOf(a) == ReceptionOf(b)
  {
  }

  /** The record before anything is submitted. */
  function InitialFormData(): FormData {
    FormData("", "", "", "", "", 0, InitialOperatingHours(), "")
  }

  /** The starting record agrees with each screen's own defaults: seeding a screen from it
      gives the same cells as seeding it from nothing. */
  lemma InitialRecordIsBlank()
    ensures ContactInfo.Seed(Some(ContactOf(InitialFormData()))) == ContactInfo.Seed(None)
    ensures HotelDetails.Seed(Some(HotelOf(InitialFormData()))) == HotelDetails.Seed(None)
    ensures ReceptionHours.Seed(Some(ReceptionOf(InitialFormData()))) == ReceptionHours.Seed(None)
  {
  }

  /** `handleContactInfoSubmit`'s spread: the contact part is replaced, the rest kept. */
  function MergeContact(d: FormData, c: ContactInfo.ContactData): (r: FormData)
    ensures ContactOf(r) == c
    ensures HotelOf(r) == HotelOf(d) && ReceptionOf(r) == ReceptionOf(d)
  {
    d.(name := c.name, phoneNumber := c.phoneNumber)
  }

  /** `handleHotelDetailsSubmit`'s spread: the hotel part is replaced, the rest kept. */
  function MergeHotel(d: FormData, h: HotelDetails.HotelData): (r: FormData)
    ensures HotelOf(r) == h
    ensures ContactOf(r) == ContactOf(d) && ReceptionOf(r) == ReceptionOf(d)
  {
    d.(hotelName := h.hotelName, hotelSize := h.hotelSize, hotelLocation := h.hotelLocation)
  }

  /** `handleReceptionHoursSubmit`: the three named fields are replaced, the rest kept. */
  function MergeReception(d: FormData, x: ReceptionHours.ReceptionData): (r: FormData)
    ensures ReceptionOf(r) == x
    ensures ContactOf(r) == ContactOf(d) && HotelOf(r) == HotelOf(d)
  {
    d.(totalRooms := x.totalRooms, receptionOperatingHours := x.receptionOperatingHours,
       description := x.description)
  }

  /** Submitting a screen again replaces what it submitted before: only the last submission
      of each screen is kept. */
  lemma ResubmitReplaces(d: FormData, c1: ContactInfo.ContactData, c2: ContactInfo.ContactData,
                         h1: HotelDetails.HotelData, h2: HotelDetails.HotelData,
                         x1: ReceptionHours.ReceptionData, x2: ReceptionHours.ReceptionData)
    ensures MergeContact(MergeContact(d, c1), c2) == MergeContact(d, c2)
    ensures MergeHotel(MergeHotel(d, h1), h2) == MergeHotel(d, h2)
    ensures MergeReception(MergeReception(d, x1), x2) == MergeReception(d, x2)
  {
    PartsDetermineRecord(MergeContact(MergeContact(d, c1), c2), MergeContact(d, c2));
    PartsDetermineRecord(MergeHotel(MergeHotel(d, h1), h2), MergeHotel(d, h2));
    PartsDetermineRecord(MergeReception(MergeReception(d, x1), x2), MergeReception(d, x2));
  }

  /** The three screens write disjoint parts, so the order of their submissions does not
      matter to the record. */
  lemma MergesCommute(d: FormData, c: ContactInfo.ContactData, h: HotelDetails.HotelData,
                      x: ReceptionHours.ReceptionData)
    ensures MergeHotel(MergeContact(d, c), h) == MergeContact(MergeHotel(d, h), c)
    ensures MergeReception(MergeContact(d, c), x) == MergeContact(MergeReception(d, x), c)
    ensures MergeReception(MergeHotel(d, h), x) == MergeHotel(MergeReception(d, x), h)
  {
    PartsDetermineRecord(MergeHotel(MergeContact(d, c), h), MergeContact(MergeHotel(d, h), c));
    PartsDetermineRecord(MergeReception(MergeContact(d, c), x), MergeContact(MergeReception(d, x), c));
    PartsDetermineRecord(MergeReception(MergeHotel(d, h), x), MergeHotel(MergeReception(d, x), h));
  }

  /** What `renderStep` puts on screen: a step component with the `initialData` it is given,
      the completion summary of the record, or the error text. */
  datatype View =
    | ContactView(contactSeed: Option<ContactInfo.ContactData>)
    | HotelView(hotelSeed: Option<HotelDetails.HotelData>)
    | ReceptionView(receptionSeed: Option<ReceptionHours.ReceptionData>)
    | CompleteView(record: FormData)
    | FallbackView

  /** `renderStep`: the switch on `currentStep`. The contact screen gets no `initialData`;
      the hotel and reception screens are seeded from their part of the record. */
  function RenderStep(step: int, d: FormData): (v: View)
    ensures v.FallbackView? <==> !(1 <= step <= 4)
  {
    match step
    case 1 => ContactView(None)
    case 2 => HotelView(Some(HotelOf(d)))
    case 3 => ReceptionView(Some(ReceptionOf(d)))
    case 4 => CompleteView(d)
    case _ => FallbackView
  }

  /** A callback a screen can fire, with what it passes. */
  datatype Event =
    | ContactNext(contact: ContactInfo.ContactData)
    | HotelNext(hotel: HotelDetails.HotelData)
    | HotelBack
    | ReceptionNext(reception: ReceptionHours.ReceptionData)
    | ReceptionBack

  /** The view was handed the callback behind `e`: `onNext` to the three screens, `onBack`
      to the hotel and reception screens only, nothing to the summary or the error text. */
  predicate Offers(v: View, e: Event) {
    match v
    case ContactView(_) => e.ContactNext?
    case HotelView(_) => e.HotelNext? || e.HotelBack?
    case ReceptionView(_) => e.ReceptionNext? || e.ReceptionBack?
    case CompleteView(_) => false
    case FallbackView => false
  }

  /** The wizard's two state cells. */
  datatype WizardState = WizardState(step: int, data: FormData)

  function InitialState(): WizardState {
    WizardState(1, InitialFormData())
  }

  /** The five handlers of `App`: each sets the step, and the submit handlers merge their
      screen's data into the record. */
  function Handle(d: FormData, e: Event): WizardState {
    match e
    case ContactNext(c) => WizardState(2, MergeContact(d, c))
    case HotelNext(h) => WizardState(3, MergeHotel(d, h))
    case HotelBack => WizardState(1, d)
    case ReceptionNext(x) => WizardState(4, MergeReception(d, x))
    case ReceptionBack => WizardState(2, d)
  }

  /** Firing `e` on the screen the wizard is showing; `None` when that screen was not given
      the callback. Going back never touches the record. */
  function Fire(s: WizardState, e: Event): (r: Option<WizardState>)
    ensures r.Some? <==> Offers(RenderStep(s.step, s.data), e)
    ensures r.Some? && (e.HotelBack? || e.ReceptionBack?) ==> r.value.data == s.data
  {
    if Offers(RenderStep(s.step, s.data), e) then Some(Handle(s.data, e)) else None
  }

  /** The steps the wizard can move between in one handler. */
  predicate IsEdge(from: int, to: int) {
    || (from == 1 && to == 2)
    || (from == 2 && to == 1) || (from == 2 && to == 3)
    || (from == 3 && to == 2) || (from == 3 && to == 4)
  }

  /** Every handler the current screen can fire moves along an edge. */
  lemma FireFollowsEdge(s: WizardState, e: Event)
    requires Fire(s, e).Some?
    ensures IsEdge(s.step, Fire(s, e).value.step)
  {
  }

  /** Every edge is taken by some handler, whatever the record holds. */
  lemma EdgeIsTaken(from: int, to: int, d: FormData)
    requires IsEdge(from, to)
    ensures exists e :: Fire(WizardState(from, d), e).Some? && Fire(WizardState(from, d), e).value.step == to
  {
    var e :=
      if from == 1 then ContactNext(ContactOf(d))
      else if from == 2 && to == 1 then HotelBack
      else if from == 2 then HotelNext(HotelOf(d))
      else if to == 2 then ReceptionBack
      else ReceptionNext(ReceptionOf(d));
    assert Fire(WizardState(from, d), e).value.step == to;
  }

  /** The completion summary offers no callback: step 4 is never left. */
  lemma CompleteIsTerminal(s: WizardState, e: Event)
    requires s.step == 4
    ensures Fire(s, e) == None
  {
  }

  /** Firing the callbacks in order; `None` as soon as one is not on screen. */
  function Run(s: WizardState, events: seq<Event>): Option<WizardState>
    decreases |events|
  {
    if events == [] then Some(s)
    else
      match Fire(s, events[0])
      case None => None
      case Some(t) => Run(t, events[1..])
  }

  /** The event came out of its screen's `handleSubmit` gate; going back needs no gate. */
  predicate PassedGate(e: Event) {
    match e
    case ContactNext(c) => ContactInfo.Validate(c.name, c.phoneNumber) == Ok(c)
    case HotelNext(h) => HotelDetails.Validate(h.hotelName, h.hotelSize, h.hotelLocation) == Ok(h)
    case ReceptionNext(x) =>
      ReceptionHours.Validate(x.totalRooms, x.receptionOperatingHours, x.description) == Ok(x)
    case HotelBack => true
    case ReceptionBack => true
  }

  /** Once the wizard is past a screen, the record holds data that screen's gate accepts. */
  predicate PastGates(s: WizardState) {
    && 1 <= s.step <= 4
    && (s.step >= 2 ==> ContactInfo.Validate(s.data.name, s.data.phoneNumber).Ok?)
    && (s.step >= 3 ==> HotelDetails.Validate(s.data.hotelName, s.data.hotelSize, s.data.hotelLocation).Ok?)
    && (s.step == 4 ==>
          ReceptionHours.Validate(s.data.totalRooms, s.data.receptionOperatingHours, s.data.description).Ok?)
  }

  /** One gated handler keeps `PastGates`. */
  lemma FireKeepsPastGates(s: WizardState, e: Event)
    requires PastGates(s) && PassedGate(e) && Fire(s, e).Some?
    ensures PastGates(Fire(s, e).value)
  {
  }

  /** Any sequence of gated handlers keeps `PastGates`. */
  lemma {:induction false} RunKeepsPastGates(s: WizardState, events: seq<Event>)
    requires PastGates(s)
    requires forall i :: 0 <= i < |events| ==> PassedGate(events[i])
    requires Run(s, events).Some?
    ensures PastGates(Run(s, events).value)
    decreases |events|
  {
    if events != [] {
      var t := Fire(s, events[0]).value;
      FireKeepsPastGates(s, events[0]);
      RunKeepsPastGates(t, events[1..]);
    }
  }

  /** Whatever the path through the screens, back and forth, the summary on step 4 shows
      a record every gate accepts: visible contact and hotel fields, at least one room, an
      operating day and both hours. */
  lemma CompletedRecordPassedEveryGate(events: seq<Event>)
    requires forall i :: 0 <= i < |events| ==> PassedGate(events[i])
    requires Run(InitialState(), events).Some? && Run(InitialState(), events).value.step == 4
    ensures var d := Run(InitialState(), events).value.data;
      && ContactInfo.Validate(d.name, d.phoneNumber).Ok?
      && HotelDetails.Validate(d.hotelName, d.hotelSize, d.hotelLocation).Ok?
      && ReceptionHours.Validate(d.totalRooms, d.receptionOperatingHours, d.description).Ok?
  {
    RunKeepsPastGates(InitialState(), events);
  }

  /** Going back from the reception screen reopens the hotel screen with exactly the values
      last submitted there. */
  lemma BackShowsSubmittedHotel(s: WizardState, h: HotelDetails.HotelData)
    requires s.step == 2
    ensures var t := Fire(Fire(s, HotelNext(h)).value, ReceptionBack).value;
      var v := RenderStep(t.step, t.data);
      t.step == 2 && v.HotelView? && HotelDetails.Seed(v.hotelSeed) == h
  {
  }

  /** Going back to the hotel screen and forward again reopens the reception screen with what
      the record holds for it. */
  lemma ReturnShowsStoredReception(s: WizardState, h: HotelDetails.HotelData)
    requires s.step == 3
    ensures var t := Fire(Fire(s, ReceptionBack).value, HotelNext(h)).value;
      var v := RenderStep(t.step, t.data);
      t.step == 3 && v.ReceptionView? && ReceptionHours.Seed(v.receptionSeed) == ReceptionOf(s.data)
  {
  }

  /** Going back to the contact screen shows blank inputs although the record keeps the
      contact data submitted before. */
  lemma BackToContactShowsBlank(s: WizardState)
    requires s.step == 2
    ensures var t := Fire(s, HotelBack).value;
      var v := RenderStep(t.step, t.data);
      && t.step == 1 && ContactOf(t.data) == ContactOf(s.data)
      && v.ContactView? && ContactInfo.Seed(v.contactSeed) == ContactInfo.ContactData("", "")
  {
  }

  /** The part of the wizard the header names. */
  datatype Phase = Greeting | Rooms | Done | Unknown

  function PhaseOf(step: int): Phase {
    if step == 1 || step == 2 then Greeting
    else if step == 3 then Rooms
    else if step == 4 then Done
    else Unknown
  }

  /** `getTitle`. */
  function Title(step: int): string {
    match step
    case 1 => "Hello, I'm AgukenAI."
    case 2 => "Hello, I'm AgukenAI."
    case 3 => "Total Number of Rooms"
    case 4 => "Onboarding Complete!"
    case _ => "Onboarding"
  }

  /** The subtitle of the contact and hotel screens. */
  const GreetingSubtitle: string :=
    "I'm an AI Agent helping you handle reception and support calls using GenAI-based phone call automation."

  /** `getSubtitle`. */
  function Subtitle(step: int): string {
    match step
    case 1 => GreetingSubtitle
    case 2 => GreetingSubtitle
    case 3 => "Reception Operating Hours"
    case _ => ""
  }

  /** Two steps share a title exactly when they are in the same phase: the contact and hotel
      screens share the greeting, and every other phase has a title of its own. */
  lemma TitleNamesPhase(a: int, b: int)
    ensures Title(a) == Title(b) <==> PhaseOf(a) == PhaseOf(b)
  {
  }

  /** The subtitle follows the phase, and is blank from the summary on and for unknown steps. */
  lemma SubtitleFollowsPhase(a: int, b: int)
    ensures PhaseOf(a) == PhaseOf(b) ==> Subtitle(a) == Subtitle(b)
    ensures Subtitle(a) == "" <==> PhaseOf(a) == Done || PhaseOf(a) == Unknown
  {
  }

  /** `App`'s two state cells and its five handlers. Each handler is only reachable from the
      screen that is given it, hence its requirement on the step. */
  class Wizard {
    var currentStep: int
    var formData: FormData

    function State(): WizardState
      reads this
    {
      WizardState(currentStep, formData)
    }

    constructor ()
      ensures State() == InitialState()
    {
      currentStep := 1;
      formData := InitialFormData();
    }

    /** `handleContactInfoSubmit`. */
    method SubmitContact(data: ContactInfo.ContactData)
      requires currentStep == 1
      modifies this
      ensures currentStep == 2 && formData == MergeContact(old(formData), data)
      ensures Fire(old(State()), ContactNext(data)) == Some(State())
    {
      formData := formData.(name := data.name, phoneNumber := data.phoneNumber);
      currentStep := 2;
    }

    /** `handleHotelDetailsSubmit`. */
    method SubmitHotel(data: HotelDetails.HotelData)
      requires currentStep == 2
      modifies this
      ensures currentStep == 3 && formData == MergeHotel(old(formData), data)
      ensures Fire(old(State()), HotelNext(data)) == Some(State())
    {
      formData := formData.(hotelName := data.hotelName, hotelSize := data.hotelSize,
                            hotelLocation := data.hotelLocation);
      currentStep := 3;
    }

    /** `handleReceptionHoursSubmit`. */
    method SubmitReception(data: ReceptionHours.ReceptionData)
      requires currentStep == 3
      modifies this
      ensures currentStep == 4 && formData == MergeReception(old(formData), data)
      ensures Fire(old(State()), ReceptionNext(data)) == Some(State())
    {
      formData := formData.(totalRooms := data.totalRooms,
                            receptionOperatingHours := data.receptionOperatingHours,
                            description := data.description);
      currentStep := 4;
    }

    /** `handleBackToContactInfo`, the hotel screen's `onBack`. */
    method BackTo1()
      requires currentStep == 2
      modifies this
      ensures currentStep == 1 && formData == old(formData)
      ensures Fire(old(State()), HotelBack) == Some(State())
    {
      currentStep := 1;
    }

    /** `handleBackToHotelDetails`, the reception screen's `onBack`. */
    method BackTo2()
      requires currentStep == 3
      modifies this
      ensures currentStep == 2 && formData == old(formData)
      ensures Fire(old(State()), ReceptionBack) == Some(State())
    {
      currentStep := 2;
    }
  }
}
