/** The shortlist rule: months of experience and tier-1 employers read from
    the canonical record's experience list, the compensation and location
    tests, and the verdict with its reason text. */
module Eligibility {
  import opened Json
  import opened Dates
  import Canonical

  const Tier1Companies: seq<string> :=
    ["google", "meta", "facebook", "openai", "apple", "microsoft", "amazon", "netflix", "uber",
     "airbnb", "stripe", "tesla"]

  const QualifiedLocations: seq<string> :=
    ["us", "usa", "united states", "canada", "uk", "united kingdom", "germany", "india"]

  /** `any(name in text for name in names)`: substring tests, in order. */
  function AnyIn(names: seq<string>, text: string): (r: bool)
    ensures r <==> exists i :: 0 <= i < |names| && IsSubstring(names[i], text)
  {
    if names == [] then false
    else if IsSubstring(names[0], text) then true
    else
      var r := AnyIn(names[1..], text);
      assert forall i :: 1 <= i < |names| ==> names[i] == names[1..][i - 1];
      r
  }

  // ---------------------------------------------------------------------
  // Experience in months

  /** What one experience entry adds: a number of months, or nothing when a
      date does not parse (the ValueError the loop skips). */
  datatype Span = Counted(months: nat) | Skipped

  function AtLeastZero(n: int): nat {
    if n < 0 then 0 else n
  }

  /** One pass of the experience loop. The start must be a string (else
      TypeError from `strptime`); an end that is missing, empty or reads
      'present' in any case means `now`; any other truthy end must be a
      string (else AttributeError from `.lower()`); a negative span counts
      as zero. */
  function EntryMonths(exp: Value, now: Date): (r: Result<Span>)
    ensures r.Ok? ==> exp.Obj?
  {
    if !exp.Obj? then Err(AttributeError)
    else
      var start := FieldOr(exp.entries, "start", Str(""));
      if !start.Str? then Err(TypeError)
      else
        match ParseYmd(start.s)
        case None => Ok(Skipped)
        case Some(startDate) =>
          var end := FieldOr(exp.entries, "end", Str(""));
          if !Truthy(end) then Ok(Counted(AtLeastZero(MonthsBetween(startDate, now))))
          else if !end.Str? then Err(AttributeError)
          else if Lower(end.s) == "present" then Ok(Counted(AtLeastZero(MonthsBetween(startDate, now))))
          else
            match ParseYmd(end.s)
            case None => Ok(Skipped)
            case Some(endDate) => Ok(Counted(AtLeastZero(MonthsBetween(startDate, endDate))))
  }

  /** An entry raises exactly when it is not a dict, its start is not a
      string, or its start parses and its end is truthy but not a string;
      it is skipped exactly when a date it needs does not parse. */
  lemma EntryOutcome(exp: Value, now: Date)
    ensures !exp.Obj? ==> EntryMonths(exp, now).Err?
    ensures exp.Obj? ==>
      var start := FieldOr(exp.entries, "start", Str(""));
      var end := FieldOr(exp.entries, "end", Str(""));
      && (EntryMonths(exp, now).Err? <==> !start.Str? || (ParseYmd(start.s).Some? && Truthy(end) && !end.Str?))
      && (EntryMonths(exp, now) == Ok(Skipped) <==>
            && start.Str?
            && (|| ParseYmd(start.s).None?
                || (Truthy(end) && end.Str? && Lower(end.s) != "present" && ParseYmd(end.s).None?)))
  {
  }

  /** Adds one entry's outcome to the count so far. */
  function Step(total: Result<nat>, span: Result<Span>): Result<nat> {
    match total
    case Err(e) => Err(e)
    case Ok(t) =>
      match span
      case Err(e) => Err(e)
      case Ok(Skipped) => Ok(t)
      case Ok(Counted(m)) => Ok(t + m)
  }

  /** The months of all entries, in order; the first entry that raises stops
      the count. */
  function TotalMonths(entries: seq<Value>, now: Date): (r: Result<nat>)
  {
    if entries == [] then Ok(0)
    else Step(TotalMonths(entries[..|entries| - 1], now), EntryMonths(entries[|entries| - 1], now))
  }

  lemma TotalMonthsSnoc(entries: seq<Value>, e: Value, now: Date)
    ensures TotalMonths(entries + [e], now) == Step(TotalMonths(entries, now), EntryMonths(e, now))
  {
    assert (entries + [e])[..|entries|] == entries;
  }

  lemma PrefixStep(entries: seq<Value>, i: nat, now: Date)
    requires i < |entries|
    ensures TotalMonths(entries[..i + 1], now) == Step(TotalMonths(entries[..i], now), EntryMonths(entries[i], now))
  {
    assert entries[..i + 1][..i] == entries[..i];
  }

  /** One turn of the loop: an entry that raises decides the count; any
      other adds its months, if counted. */
  lemma SpanStep(entries: seq<Value>, i: nat, now: Date, total: nat, span: Result<Span>)
    requires i < |entries| && TotalMonths(entries[..i], now) == Ok(total) && span == EntryMonths(entries[i], now)
    ensures span.Err? ==> TotalMonths(entries, now) == Err(span.error)
    ensures span.Ok? ==> TotalMonths(entries[..i + 1], now) == Ok(total + if span.value.Counted? then span.value.months else 0)
  {
    PrefixStep(entries, i, now);
    if span.Err? {
      ErrorStops(entries, i + 1, now);
    }
  }

  /** `calculate_experience_years` as a month count (the source divides it
      by 12 at the end). */
  method CalculateExperienceMonths(experience: seq<Value>, now: Date) returns (r: Result<nat>)
    ensures r == TotalMonths(experience, now)
  {
    var total := 0;
    var i := 0;
    while i < |experience|
      invariant 0 <= i <= |experience|
      invariant TotalMonths(experience[..i], now) == Ok(total)
    {
      var span := EntryMonths(experience[i], now);
      SpanStep(experience, i, now, total, span);
      if span.Err? {
        return Err(span.error);
      }
      if span.value.Counted? {
        total := total + span.value.months;
      }
      i := i + 1;
    }
    assert experience[..i] == experience;
    r := Ok(total);
  }

  /** Once the count has raised, later entries do not matter. */
  lemma {:induction false} ErrorStops(entries: seq<Value>, k: nat, now: Date)
    requires k <= |entries| && TotalMonths(entries[..k], now).Err?
    ensures TotalMonths(entries, now) == TotalMonths(entries[..k], now)
  {
    if k < |entries| {
      var init := entries[..|entries| - 1];
      assert init[..k] == entries[..k];
      ErrorStops(init, k, now);
    } else {
      assert entries[..k] == entries;
    }
  }

  /** The count succeeds exactly when no entry raises. */
  lemma {:induction false} TotalMonthsOk(entries: seq<Value>, now: Date)
    ensures TotalMonths(entries, now).Ok? <==> forall i :: 0 <= i < |entries| ==> EntryMonths(entries[i], now).Ok?
  {
    if entries != [] {
      var init := entries[..|entries| - 1];
      TotalMonthsOk(init, now);
      assert forall i :: 0 <= i < |init| ==> init[i] == entries[i];
    }
  }

  /** The error the count raises is that of the first entry that raises. */
  lemma {:induction false} FirstErrorRaised(entries: seq<Value>, k: nat, now: Date)
    requires k < |entries| && EntryMonths(entries[k], now).Err?
    requires forall i :: 0 <= i < k ==> EntryMonths(entries[i], now).Ok?
    ensures TotalMonths(entries, now) == Err(EntryMonths(entries[k], now).error)
  {
    var prefix := entries[..k + 1];
    TotalMonthsOk(prefix[..k], now);
    assert forall i :: 0 <= i < k ==> prefix[..k][i] == entries[i];
    ErrorStops(entries, k + 1, now);
  }

  /** An entry whose dates do not parse changes nothing, wherever it is. */
  lemma {:induction false} SkippedEntry(before: seq<Value>, e: Value, after: seq<Value>, now: Date)
    requires EntryMonths(e, now) == Ok(Skipped)
    ensures TotalMonths(before + [e] + after, now) == TotalMonths(before + after, now)
  {
    if after == [] {
      TotalMonthsSnoc(before, e, now);
      assert before + [e] + after == before + [e];
      assert before + after == before;
    } else {
      var init := after[..|after| - 1];
      var last := after[|after| - 1];
      SkippedEntry(before, e, init, now);
      LastSplit(before, [e], after);
      LastSplit(before, [], after);
      assert before + [] == before;
      TotalMonthsSnoc(before + [e] + init, last, now);
      TotalMonthsSnoc(before + init, last, now);
    }
  }

  lemma LastSplit(before: seq<Value>, middle: seq<Value>, after: seq<Value>)
    requires after != []
    ensures before + middle + after == (before + middle + after[..|after| - 1]) + [after[|after| - 1]]
  {
    assert after == after[..|after| - 1] + [after[|after| - 1]];
  }

  /** An end that reads 'present', in any letter case, counts up to `now`,
      exactly as a missing end does. */
  lemma PresentMeansNow(fields: map<string, Value>, end: string, now: Date)
    requires Lower(end) == "present"
    ensures EntryMonths(Obj(fields["end" := Str(end)]), now) == EntryMonths(Obj(fields - {"end"}), now)
  {
    assert FieldOr(fields["end" := Str(end)], "start", Str("")) == FieldOr(fields - {"end"}, "start", Str(""));
  }

  /** January 2020 to January 2024 is four years. */
  lemma FourYears(now: Date)
    ensures EntryMonths(Obj(map["start" := Str("2020-01-01"), "end" := Str("2024-01-01")]), now) == Ok(Counted(48))
  {
    var fields := map["start" := Str("2020-01-01"), "end" := Str("2024-01-01")];
    assert FieldOr(fields, "start", Str("")) == Str("2020-01-01");
    assert FieldOr(fields, "end", Str("")) == Str("2024-01-01");
    StartParses();
    EndParses();
    assert |Lower("2024-01-01")| != |"present"|;
  }

  lemma StartParses()
    ensures ParseYmd("2020-01-01") == Some(Date(2020, 1, 1))
  {
    assert FormatYmd(Date(2020, 1, 1)) == "2020-01-01";
    ParseFormat(Date(2020, 1, 1));
  }

  lemma EndParses()
    ensures ParseYmd("2024-01-01") == Some(Date(2024, 1, 1))
  {
    assert FormatYmd(Date(2024, 1, 1)) == "2024-01-01";
    ParseFormat(Date(2024, 1, 1));
  }

  // ---------------------------------------------------------------------
  // Tier-1 employers

  /** The entry's company, lowered, names a tier-1 company. */
  predicate Tier1Entry(exp: Value) {
    && exp.Obj?
    && var company := FieldOr(exp.entries, "company", Str(""));
    && company.Str?
    && AnyIn(Tier1Companies, Lower(company.s))
  }

  /** `.get('company', '').lower()` raises nothing on this entry. */
  predicate CompanyReadable(exp: Value) {
    exp.Obj? && FieldOr(exp.entries, "company", Str("")).Str?
  }

  /** `has_tier1_experience`: stops at the first tier-1 entry; an entry
      before it that is not a dict, or whose company is not a string, raises
      AttributeError. */
  function HasTier1(entries: seq<Value>): (r: Result<bool>)
    ensures r == Ok(true) ==> exists i :: 0 <= i < |entries| && Tier1Entry(entries[i])
    ensures r == Ok(false) ==> forall i :: 0 <= i < |entries| ==> !Tier1Entry(entries[i])
    ensures r.Err? ==> exists i :: 0 <= i < |entries| && !CompanyReadable(entries[i])
  {
    if entries == [] then Ok(false)
    else if !CompanyReadable(entries[0]) then Err(AttributeError)
    else if Tier1Entry(entries[0]) then Ok(true)
    else
      var r := HasTier1(entries[1..]);
      assert forall i :: 1 <= i < |entries| ==> entries[i] == entries[1..][i - 1];
      r
  }

  /** When every company can be read, the answer is whether some entry is a
      tier-1 one. */
  lemma {:induction false} HasTier1Spec(entries: seq<Value>)
    requires forall i :: 0 <= i < |entries| ==> CompanyReadable(entries[i])
    ensures HasTier1(entries) == Ok(exists i :: 0 <= i < |entries| && Tier1Entry(entries[i]))
  {
    if entries != [] {
      var rest := entries[1..];
      assert forall i :: 1 <= i < |entries| ==> entries[i] == rest[i - 1];
      HasTier1Spec(rest);
      if !Tier1Entry(entries[0]) {
        assert (exists i :: 0 <= i < |entries| && Tier1Entry(entries[i]))
          <==> (exists i :: 0 <= i < |rest| && Tier1Entry(rest[i])) by {
          if i :| 0 <= i < |entries| && Tier1Entry(entries[i]) {
            assert Tier1Entry(rest[i - 1]);
          }
        }
      }
    }
  }

  /** A tier-1 entry settles the answer whatever follows it, even entries
      that would raise. */
  lemma {:induction false} Tier1StopsEarly(entries: seq<Value>, k: nat)
    requires k < |entries| && Tier1Entry(entries[k])
    requires forall i :: 0 <= i < k ==> CompanyReadable(entries[i]) && !Tier1Entry(entries[i])
    ensures HasTier1(entries) == Ok(true)
  {
    if k > 0 {
      assert entries[1..][k - 1] == entries[k];
      assert forall i :: 0 <= i < k - 1 ==> entries[1..][i] == entries[i + 1];
      Tier1StopsEarly(entries[1..], k - 1);
      assert CompanyReadable(entries[0]) && !Tier1Entry(entries[0]);
    }
  }

  // ---------------------------------------------------------------------
  // Compensation and location

  /** A value compared with an integer: a bool compares as 0 or 1; anything
      else raises TypeError. */
  function AsNumber(v: Value): (r: Result<int>)
    ensures r.Ok? <==> v.Num? || v.Bool?
  {
    match v
    case Num(n) => Ok(n)
    case Bool(b) => Ok(if b then 1 else 0)
    case _ => Err(TypeError)
  }

  /** `str(v)` for the values `AsNumber` accepts. */
  function NumberText(v: Value): string {
    match v
    case Num(n) => IntToString(n)
    case Bool(b) => if b then "True" else "False"
    case _ => ""
  }

  datatype Compensation = Compensation(passed: bool, rate: Value, availability: Value)

  /** `preferred_rate <= 100 and availability >= 20` on the salary section,
      both defaulting to 0; the availability is not compared when the rate
      is already too high. */
  function CompensationOf(salary: Value): (r: Result<Compensation>)
    ensures r.Ok? ==> salary.Obj? && AsNumber(r.value.rate).Ok?
    ensures r.Ok? ==> r.value.rate == FieldOr(salary.entries, "preferred_rate", Num(0))
    ensures r.Ok? ==> r.value.availability == FieldOr(salary.entries, "availability", Num(0))
    ensures r.Ok? && r.value.passed ==> AsNumber(r.value.availability).Ok?
  {
    if !salary.Obj? then Err(AttributeError)
    else
      var rate := FieldOr(salary.entries, "preferred_rate", Num(0));
      var availability := FieldOr(salary.entries, "availability", Num(0));
      match AsNumber(rate)
      case Err(e) => Err(e)
      case Ok(r) =>
        if r > 100 then Ok(Compensation(false, rate, availability))
        else
          match AsNumber(availability)
          case Err(e) => Err(e)
          case Ok(a) => Ok(Compensation(a >= 20, rate, availability))
  }

  /** With numbers for both, the test passes exactly when the rate is at
      most 100 an hour and at least 20 hours a week are available. */
  lemma CompensationRule(salary: map<string, Value>, rate: int, availability: int)
    requires FieldOr(salary, "preferred_rate", Num(0)) == Num(rate)
    requires FieldOr(salary, "availability", Num(0)) == Num(availability)
    ensures CompensationOf(Obj(salary)).Ok?
    ensures CompensationOf(Obj(salary)).value.passed <==> rate <= 100 && availability >= 20
  {
  }

  /** A rate above 100 fails whatever the availability is, even a value
      that could not be compared. */
  lemma HighRateShortCircuits(salary: map<string, Value>, rate: int)
    requires FieldOr(salary, "preferred_rate", Num(0)) == Num(rate) && rate > 100
    ensures CompensationOf(Obj(salary)).Ok? && !CompensationOf(Obj(salary)).value.passed
  {
  }

  /** `data.get('personal', {}).get('location', '').lower()`. */
  function LocationOf(data: map<string, Value>): (r: Result<string>)
    ensures r.Ok? <==> FieldOr(data, "personal", Obj(map[])).Obj?
                       && FieldOr(FieldOr(data, "personal", Obj(map[])).entries, "location", Str("")).Str?
  {
    var personal := FieldOr(data, "personal", Obj(map[]));
    if !personal.Obj? then Err(AttributeError)
    else
      var location := FieldOr(personal.entries, "location", Str(""));
      if !location.Str? then Err(AttributeError) else Ok(Lower(location.s))
  }

  // ---------------------------------------------------------------------
  // The verdict

  /** What the evaluation reads from a parsed canonical record. */
  datatype Criteria = Criteria(months: nat, tier1: bool, compensation: Compensation, location: string)

  /** Every read the evaluation makes, in the order it makes them; the first
      one that raises decides the error. */
  function Assess(data: Value, now: Date): (r: Result<Criteria>)
  {
    if !data.Obj? then Err(AttributeError)
    else
      var entries :- Canonical.EntriesOf(FieldOr(data.entries, "experience", Arr([])));
      var months :- TotalMonths(entries, now);
      var tier1 :- HasTier1(entries);
      var compensation :- CompensationOf(FieldOr(data.entries, "salary", Obj(map[])));
      var location :- LocationOf(data.entries);
      Ok(Criteria(months, tier1, compensation, location))
  }

  predicate ExperiencePassed(c: Criteria) {
    c.months >= 48 || c.tier1
  }

  predicate LocationPassed(c: Criteria) {
    AnyIn(QualifiedLocations, c.location)
  }

  predicate Passed(c: Criteria) {
    ExperiencePassed(c) && c.compensation.passed && LocationPassed(c)
  }

  /** `f"{months / 12:.1f}"`: the years to one decimal, a tie rounded to
      the even tenth. */
  function YearsText(months: nat): string {
    var q := 5 * months / 6;
    var rem := 5 * months % 6;
    var tenths := if rem > 3 || (rem == 3 && q % 2 == 1) then q + 1 else q;
    NatToString(tenths / 10) + "." + [Digit(tenths % 10)]
  }

  /** One reason per test passed, in the order the tests run. */
  function Reasons(c: Criteria): seq<string> {
    (if c.months >= 48 then [YearsText(c.months) + " years experience"] else [])
    + (if c.tier1 then ["Tier-1 company experience"] else [])
    + (if c.compensation.passed
       then ["Rate $" + NumberText(c.compensation.rate) + "/hr, " + NumberText(c.compensation.availability)
             + "hrs/week available"]
       else [])
    + (if LocationPassed(c) then ["Located in " + c.location] else [])
  }

  /** `sep.join(parts)`. */
  function Join(parts: seq<string>, sep: string): string {
    if parts == [] then ""
    else if |parts| == 1 then parts[0]
    else parts[0] + sep + Join(parts[1..], sep)
  }

  const ErrorReason: string := "Error in evaluation"

  /** `f"{'QUALIFIED' if passed else 'NOT QUALIFIED'}: {'; '.join(reasons)}"`. */
  function VerdictText(passed: bool, reasons: seq<string>): string {
    (if passed then "QUALIFIED" else "NOT QUALIFIED") + ": " + Join(reasons, "; ")
  }

  lemma VerdictTextPrefix(passed: bool, reasons: seq<string>)
    ensures "QUALIFIED: " <= VerdictText(passed, reasons) <==> passed
  {
    var text := VerdictText(passed, reasons);
    if passed {
      assert text == "QUALIFIED: " + Join(reasons, "; ");
    } else {
      assert text[0] == 'N';
    }
  }

  /** `evaluate_shortlist_criteria` on a document that parsed to `doc`
      (None for text that is not JSON): any exception gives (False, 'Error in
      evaluation'). */
  function Evaluate(doc: Option<Value>, now: Date): (r: (bool, string))
    ensures r.1 == ErrorReason <==> doc.None? || Assess(doc.value, now).Err?
    ensures r.1 == ErrorReason ==> !r.0
  {
    if doc.None? then (false, ErrorReason)
    else
      match Assess(doc.value, now)
      case Err(_) => (false, ErrorReason)
      case Ok(c) =>
        var text := VerdictText(Passed(c), Reasons(c));
        assert text[0] != ErrorReason[0];
        (Passed(c), text)
  }

  /** The reads `evaluate_shortlist_criteria` makes from a parsed document,
      the experience months counted by the loop. */
  method ReadCriteria(data: Value, now: Date) returns (r: Result<Criteria>)
    ensures r == Assess(data, now)
  {
    if !data.Obj? {
      return Err(AttributeError);
    }
    var entries := Canonical.EntriesOf(FieldOr(data.entries, "experience", Arr([])));
    if entries.Err? {
      return Err(entries.error);
    }
    var months := CalculateExperienceMonths(entries.value, now);
    if months.Err? {
      return Err(months.error);
    }
    var tier1 := HasTier1(entries.value);
    if tier1.Err? {
      return Err(tier1.error);
    }
    var compensation := CompensationOf(FieldOr(data.entries, "salary", Obj(map[])));
    if compensation.Err? {
      return Err(compensation.error);
    }
    var location := LocationOf(data.entries);
    if location.Err? {
      return Err(location.error);
    }
    r := Ok(Criteria(months.value, tier1.value, compensation.value, location.value));
  }

  method EvaluateShortlistCriteria(doc: Option<Value>, now: Date) returns (passed: bool, reason: string)
    ensures (passed, reason) == Evaluate(doc, now)
  {
    if doc.None? {
      return false, ErrorReason;
    }
    var criteria := ReadCriteria(doc.value, now);
    if criteria.Err? {
      return false, ErrorReason;
    }
    var c := criteria.value;
    var reasons := CollectReasons(c);
    passed := ExperiencePassed(c) && c.compensation.passed && LocationPassed(c);
    reason := VerdictText(passed, reasons);
  }

  /** The reasons, appended as each test passes. */
  method CollectReasons(c: Criteria) returns (reasons: seq<string>)
    ensures reasons == Reasons(c)
  {
    reasons := [];
    if c.months >= 48 || c.tier1 {
      if c.months >= 48 {
        reasons := reasons + [YearsText(c.months) + " years experience"];
      }
      if c.tier1 {
        reasons := reasons + ["Tier-1 company experience"];
      }
    }
    if c.compensation.passed {
      reasons := reasons + ["Rate $" + NumberText(c.compensation.rate) + "/hr, "
                            + NumberText(c.compensation.availability) + "hrs/week available"];
    }
    if AnyIn(QualifiedLocations, c.location) {
      reasons := reasons + ["Located in " + c.location];
    }
  }

  // ---------------------------------------------------------------------
  // Properties of the verdict

  /** The reason starts with 'QUALIFIED: ' exactly when the candidate
      passed. */
  lemma QualifiedPrefix(doc: Option<Value>, now: Date)
    ensures "QUALIFIED: " <= Evaluate(doc, now).1 <==> Evaluate(doc, now).0
  {
    if doc.Some? && Assess(doc.value, now).Ok? {
      var c := Assess(doc.value, now).value;
      VerdictTextPrefix(Passed(c), Reasons(c));
    } else {
      assert ErrorReason[0] == 'E';
    }
  }

  /** On a document whose reads raise nothing, a candidate passes exactly
      when all three tests pass: at least 48 months of experience or some
      lowered company containing a tier-1 name; a rate of at most 100 an
      hour and at least 20 hours a week; and a lowered location containing
      some qualified location. */
  lemma PassedRule(data: map<string, Value>, entries: seq<Value>, salary: map<string, Value>, rate: int, availability: int,
                   personal: map<string, Value>, location: string, now: Date)
    requires FieldOr(data, "experience", Arr([])) == Arr(entries)
    requires TotalMonths(entries, now).Ok?
    requires forall i :: 0 <= i < |entries| ==> CompanyReadable(entries[i])
    requires FieldOr(data, "salary", Obj(map[])) == Obj(salary)
    requires FieldOr(salary, "preferred_rate", Num(0)) == Num(rate)
    requires FieldOr(salary, "availability", Num(0)) == Num(availability)
    requires FieldOr(data, "personal", Obj(map[])) == Obj(personal)
    requires FieldOr(personal, "location", Str("")) == Str(location)
    ensures Evaluate(Some(Obj(data)), now).0 <==>
      && (TotalMonths(entries, now).value >= 48 || exists i :: 0 <= i < |entries| && Tier1Entry(entries[i]))
      && rate <= 100 && availability >= 20
      && exists k :: 0 <= k < |QualifiedLocations| && IsSubstring(QualifiedLocations[k], Lower(location))
  {
    HasTier1Spec(entries);
    CompensationRule(salary, rate, availability);
  }

  /** Without a salary section the rate and availability are both 0, and 0
      hours a week fails. */
  lemma MissingSalaryFails(data: map<string, Value>, now: Date)
    requires "salary" !in data
    ensures !Evaluate(Some(Obj(data)), now).0
  {
  }

  /** A passing candidate has one reason for each test, the location last. */
  lemma PassingReasons(c: Criteria)
    requires Passed(c)
    ensures 3 <= |Reasons(c)| <= 4
    ensures Reasons(c)[|Reasons(c)| - 1] == "Located in " + c.location
  {
  }

  /** Locations are matched as substrings: 'Australia' and 'Russia' both
      contain 'us', so both qualify. */
  lemma SubstringLocations()
    ensures AnyIn(QualifiedLocations, "australia")
    ensures AnyIn(QualifiedLocations, "russia")
  {
    assert IsSubstring("us", "australia") by {
      assert "us" <= "australia"[1..];
    }
    assert IsSubstring("us", "russia") by {
      assert "us" <= "russia"[1..];
    }
  }

  /** Four years prints as '4.0'; 4.25 and 4.75 years round to the even
      tenth. */
  lemma YearsTextExamples()
    ensures YearsText(48) == "4.0"
    ensures YearsText(51) == "4.2"
    ensures YearsText(57) == "4.8"
  {
  }
}
