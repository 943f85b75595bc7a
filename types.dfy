/**
  * The shared domain types of the application: the closed enumerations of
  * service kinds and quote statuses, the discount kinds a service request may
  * carry, the paging parameters of list requests, and the minimal shapes of
  * the records that are imported from the types module but not declared there
  * (the persisted quote, the quote-settings record, the user record).
  */
module Types {
  import opened Wrappers

  datatype ServiceType =
    | EXTERIOR_WINDOW_CLEANING
    | INTERIOR_WINDOW_CLEANING
    | EXTERIOR_GUTTER_CLEANING
    | INTERIOR_GUTTER_CLEANING
    | WOOD_POWERWASHING
    | CONCRETE_POWERWASHING
    | SIDING_POWERWASHING
    | ROOF_MOSS_REMOVAL
    | HOUSE_SOFTWASHING

  /** Every variant, in declaration order (`Object.values(ServiceType)`). */
  const AllServiceTypes: seq<ServiceType> := [
    EXTERIOR_WINDOW_CLEANING, INTERIOR_WINDOW_CLEANING, EXTERIOR_GUTTER_CLEANING,
    INTERIOR_GUTTER_CLEANING, WOOD_POWERWASHING, CONCRETE_POWERWASHING,
    SIDING_POWERWASHING, ROOF_MOSS_REMOVAL, HOUSE_SOFTWASHING
  ]

  /** The string value of each enum member, which is its own identifier. */
  function ServiceTypeValue(t: ServiceType): string {
    match t
    case EXTERIOR_WINDOW_CLEANING => "EXTERIOR_WINDOW_CLEANING"
    case INTERIOR_WINDOW_CLEANING => "INTERIOR_WINDOW_CLEANING"
    case EXTERIOR_GUTTER_CLEANING => "EXTERIOR_GUTTER_CLEANING"
    case INTERIOR_GUTTER_CLEANING => "INTERIOR_GUTTER_CLEANING"
    case WOOD_POWERWASHING => "WOOD_POWERWASHING"
    case CONCRETE_POWERWASHING => "CONCRETE_POWERWASHING"
    case SIDING_POWERWASHING => "SIDING_POWERWASHING"
    case ROOF_MOSS_REMOVAL => "ROOF_MOSS_REMOVAL"
    case HOUSE_SOFTWASHING => "HOUSE_SOFTWASHING"
  }

  /** The enum member whose value is s, if any (a string received from the server or a select). */
  function ParseServiceType(s: string): (r: Option<ServiceType>)
    ensures r.Some? ==> ServiceTypeValue(r.value) == s
  {
    if s == "EXTERIOR_WINDOW_CLEANING" then Some(EXTERIOR_WINDOW_CLEANING)
    else if s == "INTERIOR_WINDOW_CLEANING" then Some(INTERIOR_WINDOW_CLEANING)
    else if s == "EXTERIOR_GUTTER_CLEANING" then Some(EXTERIOR_GUTTER_CLEANING)
    else if s == "INTERIOR_GUTTER_CLEANING" then Some(INTERIOR_GUTTER_CLEANING)
    else if s == "WOOD_POWERWASHING" then Some(WOOD_POWERWASHING)
    else if s == "CONCRETE_POWERWASHING" then Some(CONCRETE_POWERWASHING)
    else if s == "SIDING_POWERWASHING" then Some(SIDING_POWERWASHING)
    else if s == "ROOF_MOSS_REMOVAL" then Some(ROOF_MOSS_REMOVAL)
    else if s == "HOUSE_SOFTWASHING" then Some(HOUSE_SOFTWASHING)
    else None
  }

  /** The enumeration is closed: nine variants, all listed, all with distinct values that parse back. */
  lemma ServiceTypeIsClosed(t: ServiceType)
    ensures |AllServiceTypes| == 9 && t in AllServiceTypes
    ensures ParseServiceType(ServiceTypeValue(t)) == Some(t)
    ensures forall u :: ServiceTypeValue(u) == ServiceTypeValue(t) ==> u == t
  {
    assert ParseServiceType(ServiceTypeValue(t)) == Some(t);
    forall u | ServiceTypeValue(u) == ServiceTypeValue(t) ensures u == t {
      assert ParseServiceType(ServiceTypeValue(u)) == Some(u);
    }
  }

  datatype QuoteStatus = PENDING | ACCEPTED | REJECTED

  function QuoteStatusValue(s: QuoteStatus): string {
    match s
    case PENDING => "PENDING"
    case ACCEPTED => "ACCEPTED"
    case REJECTED => "REJECTED"
  }

  function ParseQuoteStatus(s: string): (r: Option<QuoteStatus>)
    ensures r.Some? ==> QuoteStatusValue(r.value) == s
  {
    if s == "PENDING" then Some(PENDING)
    else if s == "ACCEPTED" then Some(ACCEPTED)
    else if s == "REJECTED" then Some(REJECTED)
    else None
  }

  /** The option values of the status select on the quote list, in order. */
  const StatusDropdownValues: seq<string> := ["QUOTE_NOT_SENT", "PENDING", "ACCEPTED", "REJECTED"]

  /**
    * Three statuses, each parsing back from its value; of the four select
    * options, exactly the first ("QUOTE_NOT_SENT") is not a status.
    */
  lemma DropdownOutsideStatusEnum(st: QuoteStatus)
    ensures ParseQuoteStatus(QuoteStatusValue(st)) == Some(st)
    ensures ParseQuoteStatus("QUOTE_NOT_SENT") == None
    ensures forall i :: 0 <= i < |StatusDropdownValues| ==>
      (ParseQuoteStatus(StatusDropdownValues[i]) == None <==> i == 0)
    ensures QuoteStatusValue(st) in StatusDropdownValues[1..]
  {
  }

  /** The two discount kinds a service request may carry. */
  datatype DiscountType = FLAT | PERCENTAGE

  function ParseDiscountType(s: string): (r: Option<DiscountType>)
    ensures r == Some(FLAT) <==> s == "FLAT"
    ensures r == Some(PERCENTAGE) <==> s == "PERCENTAGE"
    ensures r.None? <==> s != "FLAT" && s != "PERCENTAGE"
  {
    if s == "FLAT" then Some(FLAT) else if s == "PERCENTAGE" then Some(PERCENTAGE) else None
  }

  datatype ServiceRequest = ServiceRequest(
    serviceType: ServiceType,
    units: real,
    setupMinutes: Option<real>,
    perUnitMinutes: Option<real>,
    hourlyCrewCharge: Option<real>,
    numberOfPersons: Option<real>,
    discountType: Option<DiscountType>,
    discountValue: Option<real>)

  datatype ServiceCalculation = ServiceCalculation(
    serviceType: ServiceType,
    numberOfUnits: real,
    numberOfPersons: real,
    setupMinutes: real,
    perUnitMinutes: real,
    hourlyCrewCharge: real,
    totalTimeMinutes: real,
    totalTimeHours: real,
    calendarSlotHours: real,
    subtotal: real,
    discount: real,
    tax: real,
    totalCost: real)

  /** The query of a list request: page and limit always, search and userId when set. */
  datatype Params = Params(page: int, limit: int, search: Option<string>, userId: Option<string>)

  /** A user as the user list holds it; `password` is present only on rows built from the form. */
  datatype UserData = UserData(
    id: string,
    name: string,
    email: string,
    phoneNumber: string,
    metaData: map<string, string>,
    password: Option<string>)

  /** One service of a persisted quote. */
  datatype QuoteService = QuoteService(id: string, serviceType: string, units: real, total: real)

  datatype QuoteClient = QuoteClient(
    firstName: string, lastName: string, phoneNumber: string, email: Option<string>, address: string)

  datatype Estimator = Estimator(name: string, phoneNumber: string, email: string)

  /** A persisted quote, with the fields the list, the invoice view and the PDF read. */
  datatype Quote = Quote(
    id: string,
    invoice: string,
    createdAt: string,
    clientInfo: QuoteClient,
    user: Estimator,
    services: seq<QuoteService>,
    subtotal: real,
    discountFlat: real,
    taxValue: real,
    total: real,
    status: Option<string>)

  /** A quote-settings record as the settings list and its dialog read it; numeric fields may be absent. */
  datatype SettingsRecord = SettingsRecord(
    id: string,
    serviceType: Option<ServiceType>,
    setupMinutes: Option<real>,
    perUnitMinutes: Option<real>,
    hourlyCrewCharge: Option<real>,
    areaMinutes: Option<real>,
    stairsMinutes: Option<real>,
    postsMinutes: Option<real>,
    railingMinutes: Option<real>,
    spindlesMinutes: Option<real>)
}
