/** The scalar header of the form (`generate_report`): client name,
    inspection date, property address and inspector name, each written to
    its named field only when the template has that field and the value is
    non-empty, and the inspection date with its fixed fallback. */
module Header {
  import opened JsonValues
  import opened Text
  import opened Catalog

  const ClientField: string := "Name of Client"
  const DateField: string := "Date of Inspection"
  const AddressField: string := "Address of Inspected Property"
  const InspectorField: string := "Name of Inspector"

  /** The date shown when the record has no usable timestamp. */
  const FallbackDate: string := "08/13/2025"

  /** A calendar day as `datetime` delivers it. */
  datatype Date = Date(year: nat, month: nat, day: nat)

  predicate ValidDate(d: Date) {
    1 <= d.year <= 9999 && 1 <= d.month <= 12 && 1 <= d.day <= 31
  }

  type CalendarDate = d: Date | ValidDate(d) witness Date(1970, 1, 1)

  /** A number below 100 as two digits, with a leading zero (`%m`, `%d`). */
  function TwoDigits(n: nat): (r: string)
    requires n < 100
    ensures |r| == 2 && '0' <= r[0] <= '9' && '0' <= r[1] <= '9'
  {
    [DigitChar(n / 10), DigitChar(n % 10)]
  }

  /** `strftime('%m/%d/%Y')`; the year is printed without padding. */
  function FormatDate(d: CalendarDate): string {
    TwoDigits(d.month) + "/" + TwoDigits(d.day) + "/" + Decimal(d.year)
  }

  /** A formatted date has its separators in fixed places, and no two days
      print alike. */
  lemma FormatDateShape(d: CalendarDate)
    ensures |FormatDate(d)| >= 7
    ensures FormatDate(d)[2] == '/' && FormatDate(d)[5] == '/'
    ensures 1000 <= d.year ==> |FormatDate(d)| == 10
  {
    if 1000 <= d.year {
      DecimalLength(d.year);
    }
  }

  /** A year of four digits prints as four characters. */
  lemma DecimalLength(y: nat)
    requires 1000 <= y <= 9999
    ensures |Decimal(y)| == 4
  {
    assert |Decimal(y / 1000)| == 1;
    assert |Decimal(y / 100)| == 2;
    assert |Decimal(y / 10)| == 3;
  }

  lemma TwoDigitsInjective(a: nat, b: nat)
    requires a < 100 && b < 100
    requires TwoDigits(a) == TwoDigits(b)
    ensures a == b
  {
    assert TwoDigits(a)[0] == TwoDigits(b)[0];
    assert TwoDigits(a)[1] == TwoDigits(b)[1];
  }

  lemma FormatDateInjective(d: CalendarDate, e: CalendarDate)
    requires FormatDate(d) == FormatDate(e)
    ensures d == e
  {
    var s, t := FormatDate(d), FormatDate(e);
    assert s[..2] == TwoDigits(d.month) && t[..2] == TwoDigits(e.month);
    TwoDigitsInjective(d.month, e.month);
    assert s[3..5] == TwoDigits(d.day) && t[3..5] == TwoDigits(e.day);
    TwoDigitsInjective(d.day, e.day);
    assert s[6..] == Decimal(d.year) && t[6..] == Decimal(e.year);
    DecimalInjective(d.year, e.year);
  }

  /** The inspection date. A falsy timestamp gives the fallback; a truthy
      one is handed to `convert`, which stands for
      `datetime.fromtimestamp(ts / 1000)` in the local time zone and yields
      `None` where Python raises (a string timestamp, a value out of
      range); that failure is swallowed into the fallback as well. */
  function InspectionDate(ts: Json, convert: Json -> Option<CalendarDate>): (r: string)
    ensures !Truthy(ts) || convert(ts).None? ==> r == FallbackDate
    ensures Truthy(ts) && convert(ts).Some? ==> r == FormatDate(convert(ts).value)
  {
    if Truthy(ts) then
      match convert(ts)
      case Some(d) => FormatDate(d)
      case None => FallbackDate
    else FallbackDate
  }

  /** Whatever the record holds, the date is a non-empty `MM/DD/...`
      string; a converted timestamp renders as the fallback only when it
      denotes 13 August 2025 itself. */
  lemma DateNeverEmpty(ts: Json, convert: Json -> Option<CalendarDate>)
    ensures InspectionDate(ts, convert) != ""
    ensures InspectionDate(ts, convert)[2] == '/' && InspectionDate(ts, convert)[5] == '/'
    ensures Truthy(ts) && convert(ts).Some? && InspectionDate(ts, convert) == FallbackDate ==>
      convert(ts).value == Date(2025, 8, 13)
  {
    if Truthy(ts) && convert(ts).Some? {
      var d := convert(ts).value;
      FormatDateShape(d);
      if FormatDate(d) == FallbackDate {
        FallbackIsAugust13();
        FormatDateInjective(d, Date(2025, 8, 13));
      }
    }
  }

  lemma FallbackIsAugust13()
    ensures FormatDate(Date(2025, 8, 13)) == FallbackDate
  {
    assert Decimal(2025) == "2025" by {
      assert Decimal(2) == "2";
      assert Decimal(20) == "20";
      assert Decimal(202) == "202";
    }
  }

  /** The four values the header fill uses. */
  datatype HeaderData = HeaderData(client: Json, date: string, address: Json, inspector: Json)

  /** The value meant for a named header field, `None` for any other name. */
  function Intended(h: HeaderData, f: string): Option<Json> {
    if f == ClientField then Some(h.client)
    else if f == DateField then Some(JStr(h.date))
    else if f == AddressField then Some(h.address)
    else if f == InspectorField then Some(h.inspector)
    else None
  }

  /** The field data of the header fill (the four guarded assignments to
      `form_data`). */
  method FillHeader(h: HeaderData, catalog: seq<string>) returns (formData: map<string, Json>)
    ensures forall f :: f in formData <==>
      f in catalog && Intended(h, f).Some? && Truthy(Intended(h, f).value)
    ensures forall f :: f in formData ==> formData[f] == Intended(h, f).value
  {
    formData := map[];
    if ClientField in catalog && Truthy(h.client) {
      formData := formData[ClientField := h.client];
    }
    if DateField in catalog && h.date != "" {
      formData := formData[DateField := JStr(h.date)];
    }
    if AddressField in catalog && Truthy(h.address) {
      formData := formData[AddressField := h.address];
    }
    if InspectorField in catalog && Truthy(h.inspector) {
      formData := formData[InspectorField := h.inspector];
    }
  }

  /** With the date computed by `InspectionDate`, the date field is written
      whenever the template has it. */
  lemma DateAlwaysWritten(h: HeaderData, ts: Json, convert: Json -> Option<CalendarDate>, catalog: seq<string>)
    requires h.date == InspectionDate(ts, convert)
    ensures DateField in catalog ==> Intended(h, DateField).Some? && Truthy(Intended(h, DateField).value)
  {
    DateNeverEmpty(ts, convert);
  }

  /** No header field is a matrix checkbox or a comment field, so the header
      fill and the later fills never write the same field. */
  lemma HeaderFieldsApart(h: HeaderData, f: string)
    requires Intended(h, f).Some?
    ensures !IsCheckboxName(f) && !IsCommentField(f)
  {
    NoCheckBox(f);
  }

  lemma NoCheckBox(f: string)
    requires f in {ClientField, DateField, AddressField, InspectorField}
    ensures !Contains(f, "CheckBox") && !Contains(f, "Text")
  {
    assert 'B' !in f && 'T' !in f;
    Lacks(f, "CheckBox", 5);
    Lacks(f, "Text", 0);
  }
}
