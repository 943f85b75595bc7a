/**
  * The dialog that creates or edits one quote-settings record: the form
  * starts from the record (or from defaults), each number field holds what
  * `parseInt` made of the typed text, and submitting sends only the fields
  * that apply to the chosen service type.
  */
module SettingsDialog {
  import opened Wrappers
  import opened Text
  import opened Types

  /** A JavaScript number as `parseInt` leaves it: a value, or NaN for text that is not a number. */
  datatype JsNumber = Finite(value: real) | NaN

  /** `x || d`: NaN and 0 are falsy and give d. */
  function OrElse(x: JsNumber, d: real): (r: real)
    ensures x.NaN? || x == Finite(0.0) ==> r == d
    ensures x.Finite? && x.value != 0.0 ==> r == x.value
  {
    if x.Finite? && x.value != 0.0 then x.value else d
  }

  /** `quote?.field || d` on a record field that may be absent. */
  function FieldOr(x: Option<real>, d: real): (r: real)
    ensures x.None? || x == Some(0.0) ==> r == d
    ensures x.Some? && x.value != 0.0 ==> r == x.value
  {
    if x.Some? && x.value != 0.0 then x.value else d
  }

  datatype SettingsForm = SettingsForm(
    serviceType: ServiceType,
    setupMinutes: JsNumber,
    perUnitMinutes: JsNumber,
    hourlyCrewCharge: JsNumber,
    areaMinutes: JsNumber,
    stairsMinutes: JsNumber,
    postsMinutes: JsNumber,
    railingMinutes: JsNumber,
    spindlesMinutes: JsNumber)

  const DefaultSetupMinutes: real := 90.0
  const DefaultPerUnitMinutes: real := 3.0
  const DefaultHourlyCrewCharge: real := 70.0

  /** The form a dialog opens with: the record's values, with missing or zero fields replaced by the defaults. */
  function InitialForm(quote: Option<SettingsRecord>): (f: SettingsForm)
    ensures quote.None? ==> f == SettingsForm(
      EXTERIOR_WINDOW_CLEANING, Finite(90.0), Finite(3.0), Finite(70.0),
      Finite(0.0), Finite(0.0), Finite(0.0), Finite(0.0), Finite(0.0))
    ensures quote.Some? && quote.value.serviceType.Some? ==> f.serviceType == quote.value.serviceType.value
    ensures quote.Some? && quote.value.serviceType.None? ==> f.serviceType == EXTERIOR_WINDOW_CLEANING
    ensures quote.Some? ==> var q := quote.value;
      && f.setupMinutes == Finite(FieldOr(q.setupMinutes, DefaultSetupMinutes))
      && f.perUnitMinutes == Finite(FieldOr(q.perUnitMinutes, DefaultPerUnitMinutes))
      && f.hourlyCrewCharge == Finite(FieldOr(q.hourlyCrewCharge, DefaultHourlyCrewCharge))
      && f.areaMinutes == Finite(FieldOr(q.areaMinutes, 0.0))
      && f.stairsMinutes == Finite(FieldOr(q.stairsMinutes, 0.0))
      && f.postsMinutes == Finite(FieldOr(q.postsMinutes, 0.0))
      && f.railingMinutes == Finite(FieldOr(q.railingMinutes, 0.0))
      && f.spindlesMinutes == Finite(FieldOr(q.spindlesMinutes, 0.0))
  {
    if quote.None? then
      SettingsForm(EXTERIOR_WINDOW_CLEANING, Finite(DefaultSetupMinutes), Finite(DefaultPerUnitMinutes),
                   Finite(DefaultHourlyCrewCharge), Finite(0.0), Finite(0.0), Finite(0.0), Finite(0.0), Finite(0.0))
    else
      var q := quote.value;
      SettingsForm(
        q.serviceType.GetOr(EXTERIOR_WINDOW_CLEANING),
        Finite(FieldOr(q.setupMinutes, DefaultSetupMinutes)),
        Finite(FieldOr(q.perUnitMinutes, DefaultPerUnitMinutes)),
        Finite(FieldOr(q.hourlyCrewCharge, DefaultHourlyCrewCharge)),
        Finite(FieldOr(q.areaMinutes, 0.0)),
        Finite(FieldOr(q.stairsMinutes, 0.0)),
        Finite(FieldOr(q.postsMinutes, 0.0)),
        Finite(FieldOr(q.railingMinutes, 0.0)),
        Finite(FieldOr(q.spindlesMinutes, 0.0)))
  }

  /** What is sent: the five per-part minutes for deck powerwashing, the three time and rate fields otherwise. */
  datatype SettingsPayload =
    | WoodSettings(serviceType: ServiceType, areaMinutes: real, stairsMinutes: real, postsMinutes: real,
                   railingMinutes: real, spindlesMinutes: real)
    | TimedSettings(serviceType: ServiceType, setupMinutes: real, perUnitMinutes: real, hourlyCrewCharge: real)

  function PayloadOf(f: SettingsForm): (p: SettingsPayload)
    ensures p.serviceType == f.serviceType
    ensures p.WoodSettings? <==> f.serviceType == WOOD_POWERWASHING
  {
    if f.serviceType == WOOD_POWERWASHING then
      WoodSettings(f.serviceType, OrElse(f.areaMinutes, 0.0), OrElse(f.stairsMinutes, 0.0),
                   OrElse(f.postsMinutes, 0.0), OrElse(f.railingMinutes, 0.0), OrElse(f.spindlesMinutes, 0.0))
    else
      TimedSettings(f.serviceType, OrElse(f.setupMinutes, 0.0), OrElse(f.perUnitMinutes, 0.0),
                    OrElse(f.hourlyCrewCharge, 0.0))
  }

  /** Every falsy field (NaN from an emptied input, or 0) is sent as 0, and every other field as typed. */
  lemma PayloadSendsFalsyAsZero(f: SettingsForm)
    ensures var p := PayloadOf(f);
      && (p.WoodSettings? ==>
            && p.areaMinutes == (if f.areaMinutes.Finite? then f.areaMinutes.value else 0.0)
            && p.stairsMinutes == (if f.stairsMinutes.Finite? then f.stairsMinutes.value else 0.0)
            && p.postsMinutes == (if f.postsMinutes.Finite? then f.postsMinutes.value else 0.0)
            && p.railingMinutes == (if f.railingMinutes.Finite? then f.railingMinutes.value else 0.0)
            && p.spindlesMinutes == (if f.spindlesMinutes.Finite? then f.spindlesMinutes.value else 0.0))
      && (p.TimedSettings? ==>
            && p.setupMinutes == (if f.setupMinutes.Finite? then f.setupMinutes.value else 0.0)
            && p.perUnitMinutes == (if f.perUnitMinutes.Finite? then f.perUnitMinutes.value else 0.0)
            && p.hourlyCrewCharge == (if f.hourlyCrewCharge.Finite? then f.hourlyCrewCharge.value else 0.0))
  {
  }

  /**
    * Opening a record and saving it unchanged sends its own values, except
    * that a missing or zero setup, per-unit or hourly field comes back as
    * the default 90, 3 or 70: a zero there cannot be kept by editing.
    */
  lemma SaveUnchangedRecord(q: SettingsRecord)
    ensures var p := PayloadOf(InitialForm(Some(q)));
      && p.serviceType == q.serviceType.GetOr(EXTERIOR_WINDOW_CLEANING)
      && (p.WoodSettings? ==>
            && p.areaMinutes == q.areaMinutes.GetOr(0.0) && p.stairsMinutes == q.stairsMinutes.GetOr(0.0)
            && p.postsMinutes == q.postsMinutes.GetOr(0.0) && p.railingMinutes == q.railingMinutes.GetOr(0.0)
            && p.spindlesMinutes == q.spindlesMinutes.GetOr(0.0))
      && (p.TimedSettings? ==>
            && p.setupMinutes == FieldOr(q.setupMinutes, 90.0)
            && p.perUnitMinutes == FieldOr(q.perUnitMinutes, 3.0)
            && p.hourlyCrewCharge == FieldOr(q.hourlyCrewCharge, 70.0))
    ensures q.serviceType != Some(WOOD_POWERWASHING) && q.setupMinutes == Some(0.0) ==>
      PayloadOf(InitialForm(Some(q))).setupMinutes == 90.0
  {
  }

  /** A field `||` treats as absent: missing, or zero. */
  predicate Falsy(x: Option<real>) {
    x.None? || x == Some(0.0)
  }

  /**
    * A record with no service type and only missing or zero numbers opens
    * exactly like a new dialog: 90, 3, 70 and five zeros.
    */
  lemma FalsyRecordOpensAsNew(q: SettingsRecord)
    requires q.serviceType.None?
    requires Falsy(q.setupMinutes) && Falsy(q.perUnitMinutes) && Falsy(q.hourlyCrewCharge)
    requires Falsy(q.areaMinutes) && Falsy(q.stairsMinutes) && Falsy(q.postsMinutes)
    requires Falsy(q.railingMinutes) && Falsy(q.spindlesMinutes)
    ensures InitialForm(Some(q)) == InitialForm(None)
  {
  }

  /** A fresh dialog saved as it opens creates a window-cleaning record of 90, 3 and 70. */
  lemma DefaultPayload()
    ensures PayloadOf(InitialForm(None)) == TimedSettings(EXTERIOR_WINDOW_CLEANING, 90.0, 3.0, 70.0)
  {
  }

  /** The labels of the service types: underscores become spaces and only the first letter stays a capital. */
  lemma ServiceTypeLabels()
    ensures Label(ServiceTypeValue(WOOD_POWERWASHING)) == "Wood powerwashing"
    ensures Label(ServiceTypeValue(ROOF_MOSS_REMOVAL)) == "Roof moss removal"
    ensures forall t :: |Label(ServiceTypeValue(t))| == |ServiceTypeValue(t)| && ' ' in Label(ServiceTypeValue(t))
  {
    WoodLabel();
    MossLabel();
    LabelsHaveSpaces();
  }

  lemma WoodLabel()
    ensures Label(ServiceTypeValue(WOOD_POWERWASHING)) == "Wood powerwashing"
  {
    LabelIs(ServiceTypeValue(WOOD_POWERWASHING), "Wood powerwashing");
  }

  lemma MossLabel()
    ensures Label(ServiceTypeValue(ROOF_MOSS_REMOVAL)) == "Roof moss removal"
  {
    LabelIs(ServiceTypeValue(ROOF_MOSS_REMOVAL), "Roof moss removal");
  }

  /** A label is fixed character by character. */
  lemma LabelIs(s: string, e: string)
    requires |s| == |e| && |s| > 0 && 'A' <= s[0] <= 'Z' && e[0] == s[0]
    requires forall i :: 0 < i < |s| ==> e[i] == (if s[i] == '_' then ' ' else ToLower(s[i]))
    ensures Label(s) == e
  {
  }

  lemma LabelsHaveSpaces()
    ensures forall t :: |Label(ServiceTypeValue(t))| == |ServiceTypeValue(t)| && ' ' in Label(ServiceTypeValue(t))
  {
    forall t ensures ' ' in Label(ServiceTypeValue(t)) {
      var s := ServiceTypeValue(t);
      var k := if t == WOOD_POWERWASHING || t == ROOF_MOSS_REMOVAL then 4
               else if t == HOUSE_SOFTWASHING then 5
               else if t == SIDING_POWERWASHING then 6
               else if t == CONCRETE_POWERWASHING || t == EXTERIOR_WINDOW_CLEANING
                    || t == EXTERIOR_GUTTER_CLEANING || t == INTERIOR_WINDOW_CLEANING
                    || t == INTERIOR_GUTTER_CLEANING then 8
               else 0;
      assert s[k] == '_';
      assert Label(s)[k] == ' ';
    }
  }

  /** Which number input changed. */
  datatype Field = Setup | PerUnit | Hourly | Area | Stairs | Posts | Railing | Spindles

  class Dialog {
    var formData: SettingsForm
    var isSubmitting: bool

    constructor (quote: Option<SettingsRecord>)
      ensures formData == InitialForm(quote) && !isSubmitting
    {
      formData := InitialForm(quote);
      isSubmitting := false;
    }

    method SelectServiceType(t: ServiceType)
      modifies this`formData
      ensures formData == old(formData).(serviceType := t)
    {
      formData := formData.(serviceType := t);
    }

    /** Stores `parseInt` of the typed text in one field; the other fields are kept. */
    method ChangeField(field: Field, parsed: JsNumber)
      modifies this`formData
      ensures formData == match field
        case Setup => old(formData).(setupMinutes := parsed)
        case PerUnit => old(formData).(perUnitMinutes := parsed)
        case Hourly => old(formData).(hourlyCrewCharge := parsed)
        case Area => old(formData).(areaMinutes := parsed)
        case Stairs => old(formData).(stairsMinutes := parsed)
        case Posts => old(formData).(postsMinutes := parsed)
        case Railing => old(formData).(railingMinutes := parsed)
        case Spindles => old(formData).(spindlesMinutes := parsed)
    {
      match field
      case Setup => formData := formData.(setupMinutes := parsed);
      case PerUnit => formData := formData.(perUnitMinutes := parsed);
      case Hourly => formData := formData.(hourlyCrewCharge := parsed);
      case Area => formData := formData.(areaMinutes := parsed);
      case Stairs => formData := formData.(stairsMinutes := parsed);
      case Posts => formData := formData.(postsMinutes := parsed);
      case Railing => formData := formData.(railingMinutes := parsed);
      case Spindles => formData := formData.(spindlesMinutes := parsed);
    }

    /**
      * Sends the payload for the form; the dialog asks to be closed only
      * after the save succeeded, and the busy flag is cleared either way.
      */
    method HandleSubmit(saveOk: bool) returns (payload: SettingsPayload, closeRequested: bool)
      modifies this`isSubmitting
      ensures payload == PayloadOf(formData)
      ensures closeRequested <==> saveOk
      ensures !isSubmitting
    {
      isSubmitting := true;
      payload := PayloadOf(formData);
      closeRequested := saveOk;
      isSubmitting := false;
    }
  }
}
