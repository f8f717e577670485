/** `process_shortlist`: finds the applicant's row, evaluates its stored
    canonical JSON, records the status on the row and, for a candidate who
    passed, adds a lead to the 'Shortlisted Leads' table. Parsing the JSON
    text is a parameter: `parse(text)` is the value `json.loads` gives, None
    when it raises. */
module Shortlist {
  import opened Json
  import opened Records
  import opened Store
  import opened Dates
  import Eligibility

  const ApplicantsTable: string := "Applicants"
  const ShortlistedTable: string := "Shortlisted Leads"

  /** `a['fields'].get('Applicant ID') == applicant`: the id is compared as
      a plain string. */
  predicate IsApplicantRow(r: Record, applicant: string) {
    FieldOr(r.fields, "Applicant ID", Null) == Str(applicant)
  }

  /** The first row of the applicant, as `next(...)` finds it. */
  function FindApplicant(rs: seq<Record>, applicant: string): (r: Option<Record>)
    ensures r.Some? ==> IsApplicantRow(r.value, applicant)
    ensures r.Some? <==> exists i :: 0 <= i < |rs| && IsApplicantRow(rs[i], applicant)
    ensures r.Some? ==> exists i :: 0 <= i < |rs| && rs[i] == r.value
                                    && forall j :: 0 <= j < i ==> !IsApplicantRow(rs[j], applicant)
  {
    if rs == [] then None
    else if IsApplicantRow(rs[0], applicant) then Some(rs[0])
    else
      var r := FindApplicant(rs[1..], applicant);
      assert forall i :: 1 <= i < |rs| ==> rs[i] == rs[1..][i - 1];
      if r.Some? then
        var i :| 0 <= i < |rs[1..]| && rs[1..][i] == r.value
                 && forall j :: 0 <= j < i ==> !IsApplicantRow(rs[1..][j], applicant);
        assert rs[i + 1] == r.value && forall j :: 0 <= j < i + 1 ==> !IsApplicantRow(rs[j], applicant);
        r
      else r
  }

  /** The row found, the stored JSON and the verdict on it. */
  datatype Decision = Decision(row: Record, json: Value, passed: bool, reason: string)

  /** The document `json.loads` gives for the stored value: only a string
      can be parsed; anything else raises TypeError inside the evaluation. */
  function DocumentOf(json: Value, parse: string -> Option<Value>): Option<Value> {
    if json.Str? then parse(json.s) else None
  }

  /** What the evaluation decides, or None when there is no row for the
      applicant or its 'Compressed JSON' is missing or empty. */
  function Decide(rows: seq<Record>, applicant: string, parse: string -> Option<Value>, now: Date): (r: Option<Decision>)
    ensures r.Some? ==> Truthy(r.value.json) && IsApplicantRow(r.value.row, applicant) && r.value.row in rows
    ensures r.Some? ==> (r.value.passed, r.value.reason) == Eligibility.Evaluate(DocumentOf(r.value.json, parse), now)
  {
    match FindApplicant(rows, applicant)
    case None => None
    case Some(row) =>
      var json := FieldOr(row.fields, "Compressed JSON", Str(""));
      if !Truthy(json) then None
      else
        var verdict := Eligibility.Evaluate(DocumentOf(json, parse), now);
        Some(Decision(row, json, verdict.0, verdict.1))
  }

  function Status(passed: bool): string {
    if passed then "Shortlisted" else "Not Qualified"
  }

  /** The fields of a new lead: the link to the applicant's row, the JSON
      and the reason. */
  function LeadFields(d: Decision): map<string, Value> {
    map["Applicant" := Arr([Num(d.row.id)]), "Compressed JSON" := d.json, "Score Reason" := Str(d.reason)]
  }

  /** The tables after the status update. */
  ghost function WithStatus(tables: map<string, seq<Record>>, d: Decision): map<string, seq<Record>>
    requires ApplicantsTable in tables
  {
    tables[ApplicantsTable := Patched(tables[ApplicantsTable], d.row.id, map["Shortlist Status" := Str(Status(d.passed))])]
  }

  /** The tables after the whole call: the status update and, for a
      candidate who passed, one new lead with id `nextId`. */
  ghost function Processed(tables: map<string, seq<Record>>, nextId: nat, d: Decision): map<string, seq<Record>>
    requires ApplicantsTable in tables && (d.passed ==> ShortlistedTable in tables)
  {
    var updated := WithStatus(tables, d);
    if d.passed then updated[ShortlistedTable := tables[ShortlistedTable] + [Record(nextId, LeadFields(d))]]
    else updated
  }

  method ProcessShortlist(store: RemoteStore, applicant: string, parse: string -> Option<Value>, now: Date)
    returns (ok: bool)
    requires store.Valid()
    modifies store
    ensures store.Valid()
    ensures ok ==> && ApplicantsTable in old(store.tables)
                   && Decide(old(store.tables[ApplicantsTable]), applicant, parse, now).Some?
                   && (Decide(old(store.tables[ApplicantsTable]), applicant, parse, now).value.passed
                       ==> ShortlistedTable in old(store.tables))
                   && store.tables == Processed(old(store.tables), old(store.nextId),
                                                Decide(old(store.tables[ApplicantsTable]), applicant, parse, now).value)
    // a failure leaves the tables alone, or stops after the status update
    ensures !ok ==> || store.tables == old(store.tables)
                    || (&& ApplicantsTable in old(store.tables)
                        && Decide(old(store.tables[ApplicantsTable]), applicant, parse, now).Some?
                        && store.tables == WithStatus(old(store.tables), Decide(old(store.tables[ApplicantsTable]), applicant, parse, now).value))
    // when every call is delivered and the applicant has a stored JSON, the call succeeds
    ensures && old(store.transport) == []
            && ApplicantsTable in old(store.tables) && ShortlistedTable in old(store.tables)
            && Decide(old(store.tables[ApplicantsTable]), applicant, parse, now).Some?
            ==> ok
  {
    ghost var before := store.tables;
    var rows := store.List(ApplicantsTable);
    if rows.Err? {
      return false;
    }
    var found := FindApplicant(rows.value, applicant);
    if found.None? {
      return false;
    }
    var row := found.value;
    var json := FieldOr(row.fields, "Compressed JSON", Str(""));
    if !Truthy(json) {
      return false;
    }
    var passed, reason := Eligibility.EvaluateShortlistCriteria(DocumentOf(json, parse), now);
    var d := Decision(row, json, passed, reason);
    assert Decide(before[ApplicantsTable], applicant, parse, now) == Some(d);
    assert HasId(before[ApplicantsTable], row.id) by {
      var i :| 0 <= i < |before[ApplicantsTable]| && before[ApplicantsTable][i] == row;
    }
    var updated := store.Update(ApplicantsTable, row.id, map["Shortlist Status" := Str(Status(passed))]);
    if !updated {
      return false;
    }
    if passed {
      var created := store.Create(ShortlistedTable, LeadFields(d));
      if !created {
        return false;
      }
    }
    ok := true;
  }

  /** Every lead is created with a reason that starts with 'QUALIFIED: '. */
  lemma LeadReasonQualified(rows: seq<Record>, applicant: string, parse: string -> Option<Value>, now: Date)
    requires Decide(rows, applicant, parse, now).Some? && Decide(rows, applicant, parse, now).value.passed
    ensures "QUALIFIED: " <= Decide(rows, applicant, parse, now).value.reason
  {
    var d := Decide(rows, applicant, parse, now).value;
    Eligibility.QualifiedPrefix(DocumentOf(d.json, parse), now);
  }

  /** Stored text that does not parse is marked 'Not Qualified' and creates
      no lead. */
  lemma UnparsableNotQualified(rows: seq<Record>, applicant: string, parse: string -> Option<Value>, now: Date)
    requires Decide(rows, applicant, parse, now).Some?
    requires DocumentOf(Decide(rows, applicant, parse, now).value.json, parse).None?
    ensures Status(Decide(rows, applicant, parse, now).value.passed) == "Not Qualified"
    ensures Decide(rows, applicant, parse, now).value.reason == Eligibility.ErrorReason
  {
  }
}
