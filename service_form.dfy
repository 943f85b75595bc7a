/**
  * The draft-quote builder: client details, an ordered list of priced
  * service lines, a discount, and the one-line editor that prices a service
  * through the remote calculator and adds it to the list or replaces the
  * line being edited. Totals are derived from the lines; the form is
  * validated in one batch before the draft is turned into the payload that
  * creates or updates the quote.
  */
module ServiceForm {
  import opened Wrappers
  import opened Text
  import opened Types
  import Lists

  // ---------------------------------------------------------------------
  // Values held by the form
  // ---------------------------------------------------------------------

  /** The value of a number input: the empty string, or a number. */
  datatype Entry = Blank | Num(value: real)

  /** `x || 0` on an input value: blank and zero both become 0. */
  function OrZero(e: Entry): real {
    if e.Blank? then 0.0 else e.value
  }

  /** `x || ''` on a stored number: zero becomes a blank input. */
  function OrBlank(x: real): Entry {
    if x == 0.0 then Blank else Num(x)
  }

  /** `x || ''` on an input value. */
  function BlankIfZero(e: Entry): Entry {
    if e == Num(0.0) then Blank else e
  }

  /** What a line records of the quantity priced: a unit count, or the five deck measurements. */
  datatype Quantity =
    | Units(units: Entry)
    | Measures(areaSquareFootage: real, numberOfStairs: real, numberOfPosts: real,
               railingLengthFeet: real, numberOfSpindles: real)

  /** The first service of the calculator's answer; any field may be missing. */
  datatype Pricing = Pricing(
    setupMinutes: Option<real>,
    perUnitMinutes: Option<real>,
    hourlyCrewCharge: Option<real>,
    numberOfPersons: Option<real>,
    totalTimeMinutes: Option<real>,
    totalTimeHours: Option<real>,
    calendarSlotHours: Option<real>,
    totalCost: Option<real>)

  /** One priced service line of the draft. */
  datatype CalculationRow = CalculationRow(
    id: Option<string>,
    serviceType: ServiceType,
    quantity: Quantity,
    setupMinutes: Option<real>,
    perUnitMinutes: Option<real>,
    hourlyCrewCharge: Option<real>,
    numberOfPersons: Option<real>,
    totalTimeMinutes: Option<real>,
    totalTimeHours: Option<real>,
    calendarSlotHours: Option<real>,
    subtotal: Option<real>)

  /** The "add one service" editor; a blank field stands for both `''` and an absent field. */
  datatype Editor = Editor(
    serviceType: ServiceType,
    units: Entry,
    areaSquareFootage: Entry,
    numberOfStairs: Entry,
    numberOfPosts: Entry,
    railingLengthFeet: Entry,
    numberOfSpindles: Entry)

  const BlankEditor: Editor :=
    Editor(EXTERIOR_WINDOW_CLEANING, Blank, Blank, Blank, Blank, Blank, Blank)

  datatype ClientInfo = ClientInfo(
    firstName: string,
    lastName: string,
    address: string,
    city: string,
    province: string,
    postalCode: string,
    phoneNumber: string,
    otherPhone: string,
    units: string,
    email: string,
    notes: string)

  const EmptyClientInfo: ClientInfo := ClientInfo("", "", "", "", "", "", "", "", "", "", "")

  // ---------------------------------------------------------------------
  // Pricing one line
  // ---------------------------------------------------------------------

  /** The single service sent to the calculator: a tagged union keyed on the deck-powerwashing type. */
  datatype PricingRequest =
    | UnitsRequest(serviceType: ServiceType, units: Entry)
    | MeasuresRequest(serviceType: ServiceType, areaSquareFootage: real, numberOfStairs: real,
                      numberOfPosts: real, railingLengthFeet: real, numberOfSpindles: real)

  function RequestFor(ed: Editor): (r: PricingRequest)
    ensures r.serviceType == ed.serviceType
    ensures r.MeasuresRequest? <==> ed.serviceType == WOOD_POWERWASHING
    ensures r.UnitsRequest? ==> r.units == ed.units
    ensures r.MeasuresRequest? ==>
      && r.areaSquareFootage == OrZero(ed.areaSquareFootage)
      && r.numberOfStairs == OrZero(ed.numberOfStairs)
      && r.numberOfPosts == OrZero(ed.numberOfPosts)
      && r.railingLengthFeet == OrZero(ed.railingLengthFeet)
      && r.numberOfSpindles == OrZero(ed.numberOfSpindles)
  {
    if ed.serviceType == WOOD_POWERWASHING then
      MeasuresRequest(ed.serviceType, OrZero(ed.areaSquareFootage), OrZero(ed.numberOfStairs),
                      OrZero(ed.numberOfPosts), OrZero(ed.railingLengthFeet), OrZero(ed.numberOfSpindles))
    else
      UnitsRequest(ed.serviceType, ed.units)
  }

  /** The line built from the editor and the calculator's answer. */
  function NewRow(ed: Editor, p: Pricing): CalculationRow {
    CalculationRow(
      None, ed.serviceType,
      if ed.serviceType == WOOD_POWERWASHING then
        Measures(OrZero(ed.areaSquareFootage), OrZero(ed.numberOfStairs), OrZero(ed.numberOfPosts),
                 OrZero(ed.railingLengthFeet), OrZero(ed.numberOfSpindles))
      else Units(ed.units),
      p.setupMinutes, p.perUnitMinutes, p.hourlyCrewCharge, p.numberOfPersons,
      p.totalTimeMinutes, p.totalTimeHours, p.calendarSlotHours, p.totalCost)
  }

  /** The editor loaded from a line when its edit button is pressed. */
  function EditorFor(row: CalculationRow): Editor {
    var wood := row.serviceType == WOOD_POWERWASHING && row.quantity.Measures?;
    Editor(
      row.serviceType,
      if row.quantity.Units? then BlankIfZero(row.quantity.units) else Blank,
      if wood then OrBlank(row.quantity.areaSquareFootage) else Blank,
      if wood then OrBlank(row.quantity.numberOfStairs) else Blank,
      if wood then OrBlank(row.quantity.numberOfPosts) else Blank,
      if wood then OrBlank(row.quantity.railingLengthFeet) else Blank,
      if wood then OrBlank(row.quantity.numberOfSpindles) else Blank)
  }

  /** The line records exactly what was priced: the request's service type and quantities, and the answer's cost. */
  lemma RowRecordsRequest(ed: Editor, p: Pricing)
    ensures var row, req := NewRow(ed, p), RequestFor(ed);
      && row.serviceType == req.serviceType
      && (req.UnitsRequest? <==> row.quantity.Units?)
      && (req.UnitsRequest? ==> row.quantity.units == req.units)
      && (req.MeasuresRequest? ==> row.quantity == Measures(req.areaSquareFootage, req.numberOfStairs,
            req.numberOfPosts, req.railingLengthFeet, req.numberOfSpindles))
      && row.subtotal == p.totalCost
  {
  }

  /**
    * Loading a line back into the editor and submitting it unchanged sends
    * the request that priced the line, as long as the editor's unit count
    * was blank or positive (which the units input guarantees).
    */
  lemma EditThenResubmitSameRequest(ed: Editor, p: Pricing)
    requires ed.units.Blank? || ed.units.value > 0.0
    ensures RequestFor(EditorFor(NewRow(ed, p))) == RequestFor(ed)
  {
  }

  // ---------------------------------------------------------------------
  // The list of lines
  // ---------------------------------------------------------------------

  /**
    * The list after a priced line arrives: with an editing index inside the
    * list, that element is replaced; otherwise the line is appended.
    */
  function WithRow(lines: seq<CalculationRow>, editing: Option<nat>, row: CalculationRow): (r: seq<CalculationRow>)
    ensures editing.Some? && editing.value < |lines| ==>
      |r| == |lines| && r[editing.value] == row
      && forall j :: 0 <= j < |lines| && j != editing.value ==> r[j] == lines[j]
    ensures !(editing.Some? && editing.value < |lines|) ==>
      |r| == |lines| + 1 && r[..|lines|] == lines && r[|lines|] == row
  {
    if editing.Some? && editing.value < |lines| then lines[editing.value := row] else lines + [row]
  }

  // ---------------------------------------------------------------------
  // Totals
  // ---------------------------------------------------------------------

  /** A line's contribution to the subtotal: `calc.subtotal ?? 0`. */
  function LineSubtotal(row: CalculationRow): real {
    row.subtotal.GetOr(0.0)
  }

  /** `lines.reduce((sum, calc) => sum + (calc.subtotal ?? 0), 0)` */
  function Subtotal(lines: seq<CalculationRow>): real {
    if lines == [] then 0.0
    else Subtotal(lines[..|lines| - 1]) + LineSubtotal(lines[|lines| - 1])
  }

  const TaxRate: real := 0.13

  datatype Totals = Totals(subtotal: real, discount: real, tax: real, total: real)

  function TotalsOf(lines: seq<CalculationRow>, kind: DiscountType, value: Option<real>): (t: Totals)
    ensures t.subtotal == Subtotal(lines)
    ensures kind == FLAT ==> t.discount == value.GetOr(0.0)
    ensures kind == PERCENTAGE ==> t.discount == t.subtotal * value.GetOr(0.0) / 100.0
    ensures t.tax == (t.subtotal - t.discount) * TaxRate
    ensures t.total == t.subtotal - t.discount + t.tax
  {
    var subtotal := Subtotal(lines);
    var discount := if kind == FLAT then value.GetOr(0.0) else subtotal * value.GetOr(0.0) / 100.0;
    var tax := (subtotal - discount) * TaxRate;
    Totals(subtotal, discount, tax, subtotal - discount + tax)
  }

  lemma {:induction false} SubtotalAppend(a: seq<CalculationRow>, b: seq<CalculationRow>)
    ensures Subtotal(a + b) == Subtotal(a) + Subtotal(b)
  {
    if b == [] {
      assert a + b == a;
    } else {
      assert (a + b)[..|a + b| - 1] == a + b[..|b| - 1];
      SubtotalAppend(a, b[..|b| - 1]);
    }
  }

  lemma SubtotalSplit(lines: seq<CalculationRow>, i: nat)
    requires i < |lines|
    ensures Subtotal(lines) == Subtotal(lines[..i]) + LineSubtotal(lines[i]) + Subtotal(lines[i + 1..])
  {
    var before, line, after := lines[..i], [lines[i]], lines[i + 1..];
    assert lines == before + line + after;
    SubtotalAppend(before + line, after);
    SubtotalAppend(before, line);
    assert Subtotal(line) == LineSubtotal(lines[i]) by {
      assert line[..0] == [];
    }
  }

  /** Every line counts once: the subtotal of the lines is the sum of their subtotals, a missing one as 0. */
  lemma {:induction false} SubtotalSumsLines(lines: seq<CalculationRow>)
    ensures lines == [] ==> Subtotal(lines) == 0.0
    ensures (forall j :: 0 <= j < |lines| ==> lines[j].subtotal.None?) ==> Subtotal(lines) == 0.0
    ensures (forall j :: 0 <= j < |lines| ==> LineSubtotal(lines[j]) >= 0.0) ==> Subtotal(lines) >= 0.0
  {
    if lines != [] {
      SubtotalSumsLines(lines[..|lines| - 1]);
    }
  }

  /** Replacing or appending a line changes the subtotal by exactly that line's difference. */
  lemma SubtotalAfterUpsert(lines: seq<CalculationRow>, editing: Option<nat>, row: CalculationRow)
    ensures editing.Some? && editing.value < |lines| ==>
      Subtotal(WithRow(lines, editing, row))
        == Subtotal(lines) - LineSubtotal(lines[editing.value]) + LineSubtotal(row)
    ensures !(editing.Some? && editing.value < |lines|) ==>
      Subtotal(WithRow(lines, editing, row)) == Subtotal(lines) + LineSubtotal(row)
  {
    var r := WithRow(lines, editing, row);
    if editing.Some? && editing.value < |lines| {
      var k := editing.value;
      SubtotalSplit(lines, k);
      SubtotalSplit(r, k);
      assert r[..k] == lines[..k];
      assert r[k + 1..] == lines[k + 1..];
    } else {
      assert Subtotal(r) == Subtotal(r[..|r| - 1]) + LineSubtotal(r[|r| - 1]);
      assert r[..|r| - 1] == lines;
    }
  }

  /** Deleting line i lowers the subtotal by that line's subtotal; an index outside the list changes nothing. */
  lemma SubtotalAfterDelete(lines: seq<CalculationRow>, i: int)
    ensures 0 <= i < |lines| ==>
      Subtotal(Lists.RemoveAt(lines, i)) == Subtotal(lines) - LineSubtotal(lines[i])
    ensures !(0 <= i < |lines|) ==> Subtotal(Lists.RemoveAt(lines, i)) == Subtotal(lines)
  {
    if 0 <= i < |lines| {
      SubtotalSplit(lines, i);
      SubtotalAppend(lines[..i], lines[i + 1..]);
    }
  }

  /** A percentage of 0 removes nothing, 100 removes the whole subtotal, and 0..100 stays within the subtotal. */
  lemma PercentageDiscountBounds(lines: seq<CalculationRow>, v: real)
    ensures TotalsOf(lines, PERCENTAGE, Some(0.0)).discount == 0.0
    ensures TotalsOf(lines, PERCENTAGE, None).discount == 0.0
    ensures TotalsOf(lines, PERCENTAGE, Some(100.0)).discount == Subtotal(lines)
    ensures 0.0 <= v <= 100.0 && Subtotal(lines) >= 0.0 ==>
      0.0 <= TotalsOf(lines, PERCENTAGE, Some(v)).discount <= Subtotal(lines)
  {
    var s := Subtotal(lines);
    assert TotalsOf(lines, PERCENTAGE, Some(100.0)).discount == s * 100.0 / 100.0 == s;
    if 0.0 <= v <= 100.0 && s >= 0.0 {
      var d := TotalsOf(lines, PERCENTAGE, Some(v)).discount;
      assert d == s * v / 100.0;
      assert s * (100.0 - v) >= 0.0;
      assert s * v <= s * 100.0;
      assert 0.0 <= s * v;
    }
  }

  /** The total is the discounted subtotal with 13 % added; an empty draft with no discount totals zero. */
  lemma TotalIsTaxedNet(lines: seq<CalculationRow>, kind: DiscountType, value: Option<real>)
    ensures var t := TotalsOf(lines, kind, value);
      t.total == (t.subtotal - t.discount) * 1.13
    ensures lines == [] && value.None? ==> TotalsOf(lines, kind, value) == Totals(0.0, 0.0, 0.0, 0.0)
  {
  }

  /** One line of 100 with a flat 10 off, and one line of 200 with 50 % off. */
  lemma TotalsExamples(a: CalculationRow, b: CalculationRow)
    requires a.subtotal == Some(100.0) && b.subtotal == Some(200.0)
    ensures TotalsOf([a], FLAT, Some(10.0)) == Totals(100.0, 10.0, 11.7, 101.7)
    ensures TotalsOf([b], PERCENTAGE, Some(50.0)) == Totals(200.0, 100.0, 13.0, 113.0)
  {
    assert [a][..0] == [] && [b][..0] == [];
    assert Subtotal([a]) == 100.0 && Subtotal([b]) == 200.0;
  }

  // ---------------------------------------------------------------------
  // Validation
  // ---------------------------------------------------------------------

  /** No white space and no `@`: one `[^\s@]` run. */
  predicate PlainRun(s: string) {
    s != [] && forall i :: 0 <= i < |s| ==> !IsSpace(s[i]) && s[i] != '@'
  }

  /** `/^[^\s@]+@[^\s@]+\.[^\s@]+$/.test(s)` */
  predicate EmailShape(s: string) {
    exists at | 0 <= at < |s| :: exists dot | at < dot < |s| ::
      s[at] == '@' && s[dot] == '.' && PlainRun(s[..at]) && PlainRun(s[at + 1..dot]) && PlainRun(s[dot + 1..])
  }

  /** The eight rules of the form, in the order they are checked. */
  datatype Rule =
    | FirstNameRequired | AddressRequired | CityRequired | ProvinceRequired
    | PostalCodeRequired | PhoneRequired | EmailWellFormed | ServiceRequired

  const RuleOrder: seq<Rule> := [
    FirstNameRequired, AddressRequired, CityRequired, ProvinceRequired,
    PostalCodeRequired, PhoneRequired, EmailWellFormed, ServiceRequired
  ]

  /** The position of a rule in the checking order. */
  function RuleIndex(r: Rule): (k: nat)
    ensures k < |RuleOrder| && RuleOrder[k] == r
  {
    match r
    case FirstNameRequired => 0
    case AddressRequired => 1
    case CityRequired => 2
    case ProvinceRequired => 3
    case PostalCodeRequired => 4
    case PhoneRequired => 5
    case EmailWellFormed => 6
    case ServiceRequired => 7
  }

  function Message(r: Rule): string {
    match r
    case FirstNameRequired => "First Name is required"
    case AddressRequired => "Address is required"
    case CityRequired => "City is required"
    case ProvinceRequired => "Province is required"
    case PostalCodeRequired => "Postal Code is required"
    case PhoneRequired => "Phone Number is required"
    case EmailWellFormed => "Please enter a valid email address"
    case ServiceRequired => "At least one service must be added"
  }

  /** Which rules the draft breaks, indexed by checking order; the e-mail rule applies only to a non-blank address. */
  function Violations(info: ClientInfo, lineCount: nat): (v: seq<bool>)
    ensures |v| == |RuleOrder|
  {
    [ IsBlank(info.firstName),
      IsBlank(info.address),
      IsBlank(info.city),
      IsBlank(info.province),
      IsBlank(info.postalCode),
      IsBlank(info.phoneNumber),
      !IsBlank(info.email) && !EmailShape(info.email),
      lineCount == 0 ]
  }

  predicate Broken(info: ClientInfo, lineCount: nat, r: Rule) {
    Violations(info, lineCount)[RuleIndex(r)]
  }

  /** The rules among the first k whose flag is set, in checking order. */
  function Flagged(flags: seq<bool>, k: nat): seq<Rule>
    requires |flags| == |RuleOrder| && k <= |RuleOrder|
  {
    if k == 0 then []
    else Flagged(flags, k - 1) + (if flags[k - 1] then [RuleOrder[k - 1]] else [])
  }

  /** The messages of the rules among the first k whose flag is set, in checking order. */
  function ErrorsOf(flags: seq<bool>, k: nat): seq<string>
    requires |flags| == |RuleOrder| && k <= |RuleOrder|
  {
    if k == 0 then []
    else ErrorsOf(flags, k - 1) + (if flags[k - 1] then [Message(RuleOrder[k - 1])] else [])
  }

  /** The error list `validateForm` returns for a draft. */
  function ValidationErrors(info: ClientInfo, lineCount: nat): seq<string> {
    ErrorsOf(Violations(info, lineCount), |RuleOrder|)
  }

  lemma {:induction false} FlaggedSpec(flags: seq<bool>, k: nat)
    requires |flags| == |RuleOrder| && k <= |RuleOrder|
    ensures forall r :: r in Flagged(flags, k) <==> RuleIndex(r) < k && flags[RuleIndex(r)]
    ensures forall i, j :: 0 <= i < j < |Flagged(flags, k)| ==>
      RuleIndex(Flagged(flags, k)[i]) < RuleIndex(Flagged(flags, k)[j])
  {
    if k > 0 {
      FlaggedSpec(flags, k - 1);
      assert RuleIndex(RuleOrder[k - 1]) == k - 1;
    }
  }

  lemma {:induction false} ErrorsOfSpec(flags: seq<bool>, k: nat)
    requires |flags| == |RuleOrder| && k <= |RuleOrder|
    ensures |ErrorsOf(flags, k)| == |Flagged(flags, k)|
    ensures forall i :: 0 <= i < |Flagged(flags, k)| ==> ErrorsOf(flags, k)[i] == Message(Flagged(flags, k)[i])
  {
    if k > 0 {
      ErrorsOfSpec(flags, k - 1);
    }
  }

  /**
    * Validation is a batch: the errors are the messages of exactly the rules
    * the draft breaks, each once, in checking order, and the draft is valid
    * exactly when it breaks none.
    */
  lemma ValidationIsBatch(info: ClientInfo, lineCount: nat)
    ensures var rs := Flagged(Violations(info, lineCount), |RuleOrder|);
      && (forall r :: r in rs <==> Broken(info, lineCount, r))
      && (forall i, j :: 0 <= i < j < |rs| ==> RuleIndex(rs[i]) < RuleIndex(rs[j]))
      && |ValidationErrors(info, lineCount)| == |rs|
      && (forall i :: 0 <= i < |rs| ==> ValidationErrors(info, lineCount)[i] == Message(rs[i]))
    ensures ValidationErrors(info, lineCount) == [] <==> forall r :: !Broken(info, lineCount, r)
  {
    var rs := Flagged(Violations(info, lineCount), |RuleOrder|);
    FlaggedSpec(Violations(info, lineCount), |RuleOrder|);
    ErrorsOfSpec(Violations(info, lineCount), |RuleOrder|);
    if ValidationErrors(info, lineCount) != [] {
      assert rs[0] in rs;
    }
  }

  /**
    * A draft missing only its first name and address, with no lines, gets
    * exactly three messages: validation does not stop at the first failure.
    */
  lemma ThreeBrokenRulesThreeErrors(info: ClientInfo)
    requires IsBlank(info.firstName) && IsBlank(info.address) && IsBlank(info.email)
    requires !IsBlank(info.city) && !IsBlank(info.province) && !IsBlank(info.postalCode)
    requires !IsBlank(info.phoneNumber)
    ensures ValidationErrors(info, 0) ==
      ["First Name is required", "Address is required", "At least one service must be added"]
  {
    var v := Violations(info, 0);
    assert v == [true, true, false, false, false, false, false, true];
    var two := ["First Name is required", "Address is required"];
    assert ErrorsOf(v, 1) == ["First Name is required"];
    assert ErrorsOf(v, 2) == two;
    assert ErrorsOf(v, 3) == two;
    assert ErrorsOf(v, 4) == two;
    assert ErrorsOf(v, 5) == two;
    assert ErrorsOf(v, 6) == two;
    assert ErrorsOf(v, 7) == two;
  }

  // ---------------------------------------------------------------------
  // The payload that persists the draft
  // ---------------------------------------------------------------------

  datatype ServicePayload = ServicePayload(
    id: Option<string>,
    serviceType: ServiceType,
    units: Option<Entry>,
    setupMinutes: real,
    perUnitMinutes: real,
    hourlyCrewCharge: real,
    numberOfPersons: real,
    totalTimeMinutes: real,
    totalTimeHours: real,
    calendarSlotHours: real,
    totalCost: real)

  /** The discount as sent: the computed amount as `flat`, the raw input value as `percentage`. */
  datatype DiscountPayload = DiscountPayload(flat: real, percentage: Option<real>)

  datatype ClientPayload = ClientPayload(
    firstName: string,
    lastName: string,
    address: string,
    city: string,
    province: string,
    postalCode: string,
    phoneNumber: string,
    otherPhone: string,
    notes: string,
    email: Option<string>,
    units: string)

  datatype QuotePayload = QuotePayload(
    userId: Option<string>,
    subtotal: real,
    taxValue: real,
    total: real,
    services: seq<ServicePayload>,
    discount: DiscountPayload,
    clientInfo: ClientPayload)

  /** Create a new quote, or update the one the form was opened for. */
  datatype SaveRequest = Create(payload: QuotePayload) | Update(quoteId: string, payload: QuotePayload)

  function ServicePayloadOf(row: CalculationRow): (s: ServicePayload)
    ensures s.serviceType == row.serviceType && s.id == row.id
    ensures s.units == (if row.quantity.Units? then Some(row.quantity.units) else None)
    ensures s.totalCost == LineSubtotal(row)
    ensures s.numberOfPersons == row.numberOfPersons.GetOr(2.0)
    ensures s.setupMinutes == row.setupMinutes.GetOr(0.0) && s.perUnitMinutes == row.perUnitMinutes.GetOr(0.0)
    ensures s.hourlyCrewCharge == row.hourlyCrewCharge.GetOr(0.0)
    ensures s.totalTimeMinutes == row.totalTimeMinutes.GetOr(0.0) && s.totalTimeHours == row.totalTimeHours.GetOr(0.0)
    ensures s.calendarSlotHours == row.calendarSlotHours.GetOr(0.0)
  {
    ServicePayload(
      row.id, row.serviceType,
      if row.quantity.Units? then Some(row.quantity.units) else None,
      row.setupMinutes.GetOr(0.0), row.perUnitMinutes.GetOr(0.0), row.hourlyCrewCharge.GetOr(0.0),
      row.numberOfPersons.GetOr(2.0), row.totalTimeMinutes.GetOr(0.0), row.totalTimeHours.GetOr(0.0),
      row.calendarSlotHours.GetOr(0.0), LineSubtotal(row))
  }

  function ClientPayloadOf(info: ClientInfo): (c: ClientPayload)
    ensures c.email.None? <==> IsBlank(info.email)
    ensures c.email.Some? ==> c.email.value == info.email
    ensures c.firstName == info.firstName && c.lastName == info.lastName
    ensures c.address == info.address && c.city == info.city
    ensures c.province == info.province && c.postalCode == info.postalCode
    ensures c.phoneNumber == info.phoneNumber && c.otherPhone == info.otherPhone
    ensures c.notes == info.notes && c.units == info.units
  {
    ClientPayload(
      info.firstName, info.lastName, info.address, info.city, info.province, info.postalCode,
      info.phoneNumber, info.otherPhone, info.notes,
      if IsBlank(info.email) then None else Some(info.email),
      info.units)
  }

  function PayloadOf(userId: Option<string>, lines: seq<CalculationRow>, kind: DiscountType,
                     value: Option<real>, info: ClientInfo): (p: QuotePayload)
    ensures |p.services| == |lines|
    ensures forall j :: 0 <= j < |lines| ==> p.services[j] == ServicePayloadOf(lines[j])
    ensures var t := TotalsOf(lines, kind, value);
      p.subtotal == t.subtotal && p.taxValue == t.tax && p.total == t.total
      && p.discount == DiscountPayload(t.discount, value)
    ensures p.clientInfo == ClientPayloadOf(info) && p.userId == userId
  {
    var t := TotalsOf(lines, kind, value);
    QuotePayload(
      userId, t.subtotal, t.tax, t.total,
      seq(|lines|, j requires 0 <= j < |lines| => ServicePayloadOf(lines[j])),
      DiscountPayload(t.discount, value),
      ClientPayloadOf(info))
  }

  function SumTotalCost(services: seq<ServicePayload>): real {
    if services == [] then 0.0
    else SumTotalCost(services[..|services| - 1]) + services[|services| - 1].totalCost
  }

  lemma {:induction false} SumTotalCostOfLines(lines: seq<CalculationRow>, services: seq<ServicePayload>)
    requires |services| == |lines|
    requires forall j :: 0 <= j < |lines| ==> services[j] == ServicePayloadOf(lines[j])
    ensures SumTotalCost(services) == Subtotal(lines)
  {
    if lines != [] {
      SumTotalCostOfLines(lines[..|lines| - 1], services[..|services| - 1]);
    }
  }

  /**
    * The payload is self-consistent: its subtotal is the sum of the
    * services' totalCost fields it carries, and its total is the subtotal
    * less the flat discount plus the tax.
    */
  lemma PayloadIsConsistent(userId: Option<string>, lines: seq<CalculationRow>, kind: DiscountType,
                            value: Option<real>, info: ClientInfo)
    ensures var p := PayloadOf(userId, lines, kind, value, info);
      p.subtotal == SumTotalCost(p.services)
      && p.total == p.subtotal - p.discount.flat + p.taxValue
      && p.taxValue == (p.subtotal - p.discount.flat) * TaxRate
  {
    var p := PayloadOf(userId, lines, kind, value, info);
    SumTotalCostOfLines(lines, p.services);
  }

  /** The discount kind and value the form takes back from a loaded quote. */
  function ReloadedDiscount(d: DiscountPayload): (r: (DiscountType, Option<real>))
    ensures r.0 == PERCENTAGE <==> d.percentage.Some? && d.percentage.value > 0.0
    ensures r.0 == PERCENTAGE ==> r.1 == d.percentage
    ensures r.0 == FLAT ==> r.1 == Some(d.flat)
  {
    if d.percentage.Some? && d.percentage.value > 0.0 then (PERCENTAGE, d.percentage)
    else (FLAT, Some(d.flat))
  }

  /**
    * Saving does not preserve a flat discount: a flat amount v > 0 is sent
    * as `percentage: v` too, and loading turns it into a v % discount.
    */
  lemma FlatDiscountReloadsAsPercentage(userId: Option<string>, lines: seq<CalculationRow>, v: real, info: ClientInfo)
    requires v > 0.0
    ensures ReloadedDiscount(PayloadOf(userId, lines, FLAT, Some(v), info).discount) == (PERCENTAGE, Some(v))
  {
  }

  /**
    * A positive percentage discount survives saving and reloading; a flat
    * discount with no value reloads as a flat 0.
    */
  lemma SaveThenReloadDiscount(userId: Option<string>, lines: seq<CalculationRow>, v: real, info: ClientInfo)
    ensures v > 0.0 ==>
      ReloadedDiscount(PayloadOf(userId, lines, PERCENTAGE, Some(v), info).discount) == (PERCENTAGE, Some(v))
    ensures ReloadedDiscount(PayloadOf(userId, lines, FLAT, None, info).discount) == (FLAT, Some(0.0))
  {
  }

  // ---------------------------------------------------------------------
  // Input guards
  // ---------------------------------------------------------------------

  /** The text of a number input after `Number(value)`: empty, a number, or not a number. */
  datatype RawNumber = EmptyText | Number(x: real) | NotANumber

  predicate PositiveOrBlank(e: Entry) {
    e.Blank? || e.value > 0.0
  }

  predicate NonNegativeOrBlank(e: Entry) {
    e.Blank? || e.value >= 0.0
  }

  /** The units input accepts an empty text or a positive number; anything else leaves the value as it was. */
  function UnitsChange(current: Entry, raw: RawNumber): (r: Entry)
    ensures PositiveOrBlank(current) ==> PositiveOrBlank(r)
    ensures raw.EmptyText? ==> r == Blank
    ensures raw.Number? && raw.x > 0.0 ==> r == Num(raw.x)
    ensures raw.NotANumber? || (raw.Number? && raw.x <= 0.0) ==> r == current
  {
    match raw
    case EmptyText => Blank
    case Number(x) => if x > 0.0 then Num(x) else current
    case NotANumber => current
  }

  /** The five deck measurement inputs accept an empty text or a number of at least zero. */
  function MeasureChange(current: Entry, raw: RawNumber): (r: Entry)
    ensures NonNegativeOrBlank(current) ==> NonNegativeOrBlank(r)
    ensures raw.EmptyText? ==> r == Blank
    ensures raw.Number? && raw.x >= 0.0 ==> r == Num(raw.x)
    ensures raw.NotANumber? || (raw.Number? && raw.x < 0.0) ==> r == current
  {
    match raw
    case EmptyText => Blank
    case Number(x) => if x >= 0.0 then Num(x) else current
    case NotANumber => current
  }

  /** The discount input accepts an empty text (no discount) or a number of at least zero. */
  function DiscountValueChange(current: Option<real>, raw: RawNumber): (r: Option<real>)
    ensures (current.Some? ==> current.value >= 0.0) ==> (r.Some? ==> r.value >= 0.0)
    ensures raw.EmptyText? ==> r == None
    ensures raw.Number? && raw.x >= 0.0 ==> r == Some(raw.x)
    ensures raw.NotANumber? || (raw.Number? && raw.x < 0.0) ==> r == current
  {
    match raw
    case EmptyText => None
    case Number(x) => if x >= 0.0 then Some(x) else current
    case NotANumber => current
  }

  /** The phone input takes the typed text only while it holds at most ten digits. */
  function PhoneChange(current: string, typed: string): (r: string)
    ensures |Digits(current)| <= 10 ==> |Digits(r)| <= 10
    ensures |Digits(typed)| <= 10 ==> r == typed
    ensures |Digits(typed)| > 10 ==> r == current
  {
    if |Digits(typed)| <= 10 then typed else current
  }

  // ---------------------------------------------------------------------
  // Address components from the places autocomplete
  // ---------------------------------------------------------------------

  datatype AddressComponent = AddressComponent(longName: string, shortName: string, types: seq<string>)

  /** The part of the address a component fills: the first of its types in the order the handler tests them. */
  datatype Part = StreetNumber | Route | Locality | Region | PostalCode | Unused

  function PartOf(c: AddressComponent): (p: Part)
    ensures p == StreetNumber <==> "street_number" in c.types
    ensures p == Route <==> "route" in c.types && "street_number" !in c.types
    ensures p == Locality <==> "locality" in c.types && "street_number" !in c.types && "route" !in c.types
    ensures p == Region <==>
      "administrative_area_level_1" in c.types && "street_number" !in c.types && "route" !in c.types
      && "locality" !in c.types
    ensures p == PostalCode <==>
      "postal_code" in c.types && "street_number" !in c.types && "route" !in c.types
      && "locality" !in c.types && "administrative_area_level_1" !in c.types
    ensures p == Unused <==> forall t :: t in c.types ==>
      t !in ["street_number", "route", "locality", "administrative_area_level_1", "postal_code"]
  {
    if "street_number" in c.types then StreetNumber
    else if "route" in c.types then Route
    else if "locality" in c.types then Locality
    else if "administrative_area_level_1" in c.types then Region
    else if "postal_code" in c.types then PostalCode
    else Unused
  }

  /** The value a component gives its part: the short name for the province, the long name otherwise. */
  function PartValue(c: AddressComponent): string {
    if PartOf(c) == Region then c.shortName else c.longName
  }

  /** The value of the last component filling part p, or "" when none does (later components win). */
  function LastValue(cs: seq<AddressComponent>, p: Part): (r: string)
    ensures (forall j :: 0 <= j < |cs| ==> PartOf(cs[j]) != p) ==> r == ""
  {
    if cs == [] then ""
    else if PartOf(cs[|cs| - 1]) == p then PartValue(cs[|cs| - 1])
    else LastValue(cs[..|cs| - 1], p)
  }

  /** The last component that fills a part decides its value, whatever came before. */
  lemma {:induction false} LastValueIsLastMatch(cs: seq<AddressComponent>, p: Part, j: int)
    requires 0 <= j < |cs| && PartOf(cs[j]) == p
    requires forall k :: j < k < |cs| ==> PartOf(cs[k]) != p
    ensures LastValue(cs, p) == PartValue(cs[j])
  {
    if j < |cs| - 1 {
      var init := cs[..|cs| - 1];
      assert init[j] == cs[j];
      forall k | j < k < |init| ensures PartOf(init[k]) != p {
        assert init[k] == cs[k];
      }
      LastValueIsLastMatch(init, p, j);
    }
  }

  datatype PlaceFields = PlaceFields(address: string, city: string, province: string, postalCode: string)

  /** Walks the components once, each overwriting the part it fills, then joins street number and route. */
  method ExtractPlace(cs: seq<AddressComponent>) returns (r: PlaceFields)
    ensures r.address == Trim(LastValue(cs, StreetNumber) + " " + LastValue(cs, Route))
    ensures r.city == LastValue(cs, Locality)
    ensures r.province == LastValue(cs, Region)
    ensures r.postalCode == LastValue(cs, PostalCode)
  {
    var streetNumber, route, city, province, postalCode := "", "", "", "", "";
    for i := 0 to |cs|
      invariant streetNumber == LastValue(cs[..i], StreetNumber)
      invariant route == LastValue(cs[..i], Route)
      invariant city == LastValue(cs[..i], Locality)
      invariant province == LastValue(cs[..i], Region)
      invariant postalCode == LastValue(cs[..i], PostalCode)
    {
      var c := cs[i];
      assert cs[..i + 1][..i] == cs[..i];
      if "street_number" in c.types {
        streetNumber := c.longName;
      } else if "route" in c.types {
        route := c.longName;
      } else if "locality" in c.types {
        city := c.longName;
      } else if "administrative_area_level_1" in c.types {
        province := c.shortName;
      } else if "postal_code" in c.types {
        postalCode := c.longName;
      }
    }
    assert cs[..|cs|] == cs;
    r := PlaceFields(Trim(streetNumber + " " + route), city, province, postalCode);
  }

  // ---------------------------------------------------------------------
  // The draft as the form's state
  // ---------------------------------------------------------------------

  /** Which of the five deck measurement inputs changed. */
  datatype MeasureField = Area | Stairs | Posts | Railing | Spindles

  function WithMeasure(ed: Editor, f: MeasureField, e: Entry): Editor {
    match f
    case Area => ed.(areaSquareFootage := e)
    case Stairs => ed.(numberOfStairs := e)
    case Posts => ed.(numberOfPosts := e)
    case Railing => ed.(railingLengthFeet := e)
    case Spindles => ed.(numberOfSpindles := e)
  }

  function MeasureOf(ed: Editor, f: MeasureField): Entry {
    match f
    case Area => ed.areaSquareFootage
    case Stairs => ed.numberOfStairs
    case Posts => ed.numberOfPosts
    case Railing => ed.railingLengthFeet
    case Spindles => ed.numberOfSpindles
  }

  predicate EditorOk(ed: Editor) {
    && PositiveOrBlank(ed.units)
    && NonNegativeOrBlank(ed.areaSquareFootage) && NonNegativeOrBlank(ed.numberOfStairs)
    && NonNegativeOrBlank(ed.numberOfPosts) && NonNegativeOrBlank(ed.railingLengthFeet)
    && NonNegativeOrBlank(ed.numberOfSpindles)
  }

  predicate RowOk(row: CalculationRow) {
    match row.quantity
    case Units(u) => PositiveOrBlank(u)
    case Measures(a, s, p, r, n) => a >= 0.0 && s >= 0.0 && p >= 0.0 && r >= 0.0 && n >= 0.0
  }

  class QuoteDraft {
    var clientInfo: ClientInfo
    var calculations: seq<CalculationRow>
    var discountType: DiscountType
    var discountValue: Option<real>
    var current: Editor
    var isEditing: bool
    var editingIndex: Option<nat>
    var calculationLoading: bool
    var isLoading: bool
    var isFormSubmitted: bool
    var showSuccessDialog: bool

    /**
      * What the input guards maintain: the unit count is blank or positive,
      * measurements and the discount are never negative, the phone number
      * holds at most ten digits, and every line records such quantities.
      */
    predicate Valid()
      reads this
    {
      && EditorOk(current)
      && (discountValue.Some? ==> discountValue.value >= 0.0)
      && |Digits(clientInfo.phoneNumber)| <= 10
      && forall j :: 0 <= j < |calculations| ==> RowOk(calculations[j])
    }

    constructor ()
      ensures Valid()
      ensures clientInfo == EmptyClientInfo && calculations == []
      ensures discountType == FLAT && discountValue == None
      ensures current == BlankEditor && !isEditing && editingIndex == None
      ensures !calculationLoading && !isLoading && !isFormSubmitted && !showSuccessDialog
    {
      clientInfo := EmptyClientInfo;
      calculations := [];
      discountType := FLAT;
      discountValue := None;
      current := BlankEditor;
      isEditing := false;
      editingIndex := None;
      calculationLoading := false;
      isLoading := false;
      isFormSubmitted := false;
      showSuccessDialog := false;
    }

    /** The derived money fields of the draft. */
    function Totals(): (t: Totals)
      reads this
      ensures t == TotalsOf(calculations, discountType, discountValue)
      ensures Valid() && discountType == FLAT ==> t.discount >= 0.0
      ensures Valid() && t.subtotal >= 0.0 ==> t.discount >= 0.0
    {
      var t := TotalsOf(calculations, discountType, discountValue);
      assert Valid() && t.subtotal >= 0.0 ==> t.subtotal * discountValue.GetOr(0.0) >= 0.0;
      t
    }

    /** Picking a service type changes only the type; the other editor fields are kept. */
    method SelectServiceType(t: ServiceType)
      requires Valid()
      modifies this`current
      ensures Valid()
      ensures current == old(current).(serviceType := t)
    {
      current := current.(serviceType := t);
    }

    method ChangeUnits(raw: RawNumber)
      requires Valid()
      modifies this`current
      ensures Valid()
      ensures current == old(current).(units := UnitsChange(old(current).units, raw))
    {
      current := current.(units := UnitsChange(current.units, raw));
    }

    method ChangeMeasure(f: MeasureField, raw: RawNumber)
      requires Valid()
      modifies this`current
      ensures Valid()
      ensures current == WithMeasure(old(current), f, MeasureChange(MeasureOf(old(current), f), raw))
    {
      current := WithMeasure(current, f, MeasureChange(MeasureOf(current, f), raw));
    }

    /** Switching the kind keeps the value as entered. */
    method SelectDiscountType(kind: DiscountType)
      requires Valid()
      modifies this`discountType
      ensures Valid()
      ensures discountType == kind
    {
      discountType := kind;
    }

    method ChangeDiscountValue(raw: RawNumber)
      requires Valid()
      modifies this`discountValue
      ensures Valid()
      ensures discountValue == DiscountValueChange(old(discountValue), raw)
    {
      discountValue := DiscountValueChange(discountValue, raw);
    }

    method ChangePhone(typed: string)
      requires Valid()
      modifies this`clientInfo
      ensures Valid()
      ensures clientInfo == old(clientInfo).(phoneNumber := PhoneChange(old(clientInfo).phoneNumber, typed))
    {
      clientInfo := clientInfo.(phoneNumber := PhoneChange(clientInfo.phoneNumber, typed));
    }

    /** A chosen place fills address, city, province and postal code and nothing else. */
    method HandlePlaceChanged(cs: seq<AddressComponent>)
      requires Valid()
      modifies this`clientInfo
      ensures Valid()
      ensures clientInfo.address == Trim(LastValue(cs, StreetNumber) + " " + LastValue(cs, Route))
      ensures clientInfo.city == LastValue(cs, Locality) && clientInfo.province == LastValue(cs, Region)
      ensures clientInfo.postalCode == LastValue(cs, PostalCode)
      ensures clientInfo == old(clientInfo).(address := clientInfo.address, city := clientInfo.city,
                                             province := clientInfo.province, postalCode := clientInfo.postalCode)
    {
      var place := ExtractPlace(cs);
      clientInfo := clientInfo.(address := place.address, city := place.city,
                                province := place.province, postalCode := place.postalCode);
    }

    /** Loads line `index` into the editor and remembers it as the line being edited. */
    method HandleEditService(index: nat)
      requires Valid()
      requires index < |calculations|
      modifies this`current, this`editingIndex, this`isEditing
      ensures Valid()
      ensures current == EditorFor(calculations[index])
      ensures editingIndex == Some(index) && isEditing
    {
      current := EditorFor(calculations[index]);
      editingIndex := Some(index);
      isEditing := true;
    }

    /**
      * Prices the editor's service. On an answer, the new line replaces the
      * line being edited or is appended, and the editor resets; on a failure
      * the editor, the lines and the editing state are kept. The busy flag
      * is cleared either way.
      */
    method HandleCalculationSubmit(answer: Option<Pricing>) returns (request: PricingRequest)
      requires Valid()
      modifies this`calculations, this`current, this`isEditing, this`editingIndex, this`calculationLoading
      ensures Valid()
      ensures request == RequestFor(old(current))
      ensures !calculationLoading
      ensures answer.Some? ==>
        && calculations == WithRow(old(calculations), if old(isEditing) then old(editingIndex) else None,
                                   NewRow(old(current), answer.value))
        && current == BlankEditor && !isEditing && editingIndex == None
      ensures answer.None? ==>
        && calculations == old(calculations) && current == old(current)
        && isEditing == old(isEditing) && editingIndex == old(editingIndex)
    {
      request := RequestFor(current);
      calculationLoading := true;
      if answer.Some? {
        var newRow := NewRow(current, answer.value);
        if isEditing && editingIndex.Some? {
          var updated := calculations;
          if editingIndex.value < |updated| {
            updated := updated[editingIndex.value := newRow];
          } else {
            updated := updated + [newRow];
          }
          calculations := updated;
        } else {
          calculations := calculations + [newRow];
        }
        isEditing := false;
        editingIndex := None;
        current := BlankEditor;
      }
      calculationLoading := false;
    }

    /** Removes line `index`; an index outside the list leaves it unchanged. The editing index is not adjusted. */
    method HandleDeleteService(index: int)
      requires Valid()
      modifies this`calculations
      ensures Valid()
      ensures calculations == Lists.RemoveAt(old(calculations), index)
    {
      calculations := Lists.RemoveAt(calculations, index);
      forall j | 0 <= j < |calculations| ensures RowOk(calculations[j]) {
        if 0 <= index < |old(calculations)| && j >= index {
          assert calculations[j] == old(calculations)[j + 1];
        }
      }
    }

    /** Checks every rule in order and collects one message per broken rule. */
    method ValidateForm() returns (isValid: bool, errors: seq<string>)
      ensures errors == ValidationErrors(clientInfo, |calculations|)
      ensures isValid <==> errors == []
    {
      ghost var v := Violations(clientInfo, |calculations|);
      errors := [];
      if IsBlank(clientInfo.firstName) { errors := errors + ["First Name is required"]; }
      assert errors == ErrorsOf(v, 1);
      if IsBlank(clientInfo.address) { errors := errors + ["Address is required"]; }
      assert errors == ErrorsOf(v, 2);
      if IsBlank(clientInfo.city) { errors := errors + ["City is required"]; }
      assert errors == ErrorsOf(v, 3);
      if IsBlank(clientInfo.province) { errors := errors + ["Province is required"]; }
      assert errors == ErrorsOf(v, 4);
      if IsBlank(clientInfo.postalCode) { errors := errors + ["Postal Code is required"]; }
      assert errors == ErrorsOf(v, 5);
      if IsBlank(clientInfo.phoneNumber) { errors := errors + ["Phone Number is required"]; }
      assert errors == ErrorsOf(v, 6);
      if !IsBlank(clientInfo.email) && !EmailShape(clientInfo.email) {
        errors := errors + ["Please enter a valid email address"];
      }
      assert errors == ErrorsOf(v, 7);
      if |calculations| == 0 { errors := errors + ["At least one service must be added"]; }
      assert errors == ErrorsOf(v, 8);
      isValid := |errors| == 0;
    }

    /**
      * Validates, and only a valid draft is sent: to update when the form was
      * opened for an existing quote, to create otherwise. The draft itself is
      * never changed here; success opens the confirmation dialog.
      */
    method SubmitQuoteData(userId: Option<string>, openedFor: Option<string>, remoteOk: bool)
      returns (errors: seq<string>, sent: Option<SaveRequest>)
      requires Valid()
      modifies this`isFormSubmitted, this`isLoading, this`showSuccessDialog
      ensures Valid()
      ensures errors == ValidationErrors(clientInfo, |calculations|)
      ensures errors != [] ==>
        && sent == None && isFormSubmitted
        && isLoading == old(isLoading) && showSuccessDialog == old(showSuccessDialog)
      ensures errors == [] ==>
        && sent.Some?
        && sent.value.payload == PayloadOf(userId, calculations, discountType, discountValue, clientInfo)
        && (sent.value.Update? <==> openedFor.Some? && openedFor.value != "")
        && (sent.value.Update? ==> sent.value.quoteId == openedFor.value)
        && !isLoading
        && (remoteOk ==> showSuccessDialog && !isFormSubmitted)
        && (!remoteOk ==> showSuccessDialog == old(showSuccessDialog) && isFormSubmitted)
    {
      isFormSubmitted := true;
      var isValid;
      isValid, errors := ValidateForm();
      if !isValid {
        sent := None;
        return;
      }
      var payload := PayloadOf(userId, calculations, discountType, discountValue, clientInfo);
      isLoading := true;
      if openedFor.Some? && openedFor.value != "" {
        sent := Some(Update(openedFor.value, payload));
      } else {
        sent := Some(Create(payload));
      }
      if remoteOk {
        showSuccessDialog := true;
        isFormSubmitted := false;
      }
      isLoading := false;
    }

    /**
      * Closing the confirmation clears the client details, the lines, the
      * discount and the editor. The editing state is left as it was.
      */
    method HandleDialogClose()
      requires Valid()
      modifies this`showSuccessDialog, this`clientInfo, this`calculations, this`discountType,
               this`discountValue, this`current
      ensures Valid()
      ensures !showSuccessDialog && clientInfo == EmptyClientInfo && calculations == []
      ensures discountType == FLAT && discountValue == None && current == BlankEditor
    {
      showSuccessDialog := false;
      clientInfo := EmptyClientInfo;
      calculations := [];
      discountType := FLAT;
      discountValue := None;
      current := BlankEditor;
    }
  }

  /**
    * Deleting a line does not move the editing index: with three lines,
    * editing the second and deleting the first, the next priced line
    * replaces the third line and the line being edited stays.
    */
  lemma EditingIndexIsStaleAfterDelete(a: CalculationRow, b: CalculationRow, c: CalculationRow, n: CalculationRow)
    requires b != c && n != b && n != c
    ensures Lists.RemoveAt([a, b, c], 0) == [b, c]
    ensures WithRow(Lists.RemoveAt([a, b, c], 0), Some(1), n) == [b, n]
    ensures b in WithRow(Lists.RemoveAt([a, b, c], 0), Some(1), n)
    ensures c !in WithRow(Lists.RemoveAt([a, b, c], 0), Some(1), n)
  {
    assert [a, b, c][1..] == [b, c];
  }
}
