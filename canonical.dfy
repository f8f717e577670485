/** The canonical record of one applicant and the field dictionary between it
    and the three normalised tables, in both directions: the mapping
    `compress_to_json` applies to a raw record's fields, and the fields
    `decompress_from_json` writes for a section of a parsed canonical JSON
    document. */
module Canonical {
  import opened Json

  type Fields = map<string, Value>

  /** Each canonical field holds the raw field's value as it was read;
      nothing is converted. */
  datatype Personal = Personal(name: Value, email: Value, location: Value, linkedin: Value)
  datatype Experience = Experience(company: Value, title: Value, start: Value, end: Value, technologies: Value)
  datatype Salary = Salary(preferredRate: Value, minimumRate: Value, currency: Value, availability: Value)

  /** The dict `compress_to_json` returns: the `personal` and `salary` keys
      are present only when a record matched. */
  datatype Canonical = Canonical(personal: Option<Personal>, experience: seq<Experience>, salary: Option<Salary>)

  /** The 'Personal Details' fields as compress reads them, '' when missing. */
  function PersonalOf(fields: Fields): (p: Personal)
    ensures p.name == FieldOr(fields, "Full Name", Str(""))
    ensures p.email == FieldOr(fields, "Email", Str(""))
    ensures p.location == FieldOr(fields, "Location", Str(""))
    ensures p.linkedin == FieldOr(fields, "LinkedIn", Str(""))
  {
    Personal(
      FieldOr(fields, "Full Name", Str("")),
      FieldOr(fields, "Email", Str("")),
      FieldOr(fields, "Location", Str("")),
      FieldOr(fields, "LinkedIn", Str("")))
  }

  /** The 'Work Experience' fields as compress reads them, '' when missing. */
  function ExperienceOf(fields: Fields): (e: Experience)
    ensures e.company == FieldOr(fields, "Company", Str(""))
    ensures e.title == FieldOr(fields, "Title", Str(""))
    ensures e.start == FieldOr(fields, "Start Date", Str(""))
    ensures e.end == FieldOr(fields, "End Date", Str(""))
    ensures e.technologies == FieldOr(fields, "Technologies", Str(""))
  {
    Experience(
      FieldOr(fields, "Company", Str("")),
      FieldOr(fields, "Title", Str("")),
      FieldOr(fields, "Start Date", Str("")),
      FieldOr(fields, "End Date", Str("")),
      FieldOr(fields, "Technologies", Str("")))
  }

  /** The 'Salary Preferences' fields as compress reads them: rates and
      availability default to 0, the currency to 'USD'. */
  function SalaryOf(fields: Fields): (s: Salary)
    ensures s.preferredRate == FieldOr(fields, "Preferred Rate", Num(0))
    ensures s.minimumRate == FieldOr(fields, "Minimum Rate", Num(0))
    ensures s.currency == FieldOr(fields, "Currency", Str("USD"))
    ensures s.availability == FieldOr(fields, "Availability", Num(0))
  {
    Salary(
      FieldOr(fields, "Preferred Rate", Num(0)),
      FieldOr(fields, "Minimum Rate", Num(0)),
      FieldOr(fields, "Currency", Str("USD")),
      FieldOr(fields, "Availability", Num(0)))
  }

  function PersonalJson(p: Personal): Value {
    Obj(map["name" := p.name, "email" := p.email, "location" := p.location, "linkedin" := p.linkedin])
  }

  function ExperienceJson(e: Experience): Value {
    Obj(map["company" := e.company, "title" := e.title, "start" := e.start, "end" := e.end,
            "technologies" := e.technologies])
  }

  function SalaryJson(s: Salary): Value {
    Obj(map["preferred_rate" := s.preferredRate, "minimum_rate" := s.minimumRate,
            "currency" := s.currency, "availability" := s.availability])
  }

  function ExperienceListJson(es: seq<Experience>): (vs: seq<Value>)
    ensures |vs| == |es|
    ensures forall i :: 0 <= i < |es| ==> vs[i] == ExperienceJson(es[i])
  {
    seq(|es|, i requires 0 <= i < |es| => ExperienceJson(es[i]))
  }

  /** The canonical record as the JSON document that is stored and later
      parsed again (dumping and loading a document of these values gives it
      back unchanged). */
  function ToJson(c: Canonical): (v: Value)
    ensures v.Obj? && "experience" in v.entries
    ensures "personal" in v.entries <==> c.personal.Some?
    ensures "salary" in v.entries <==> c.salary.Some?
  {
    var base := map["experience" := Arr(ExperienceListJson(c.experience))];
    var withPersonal := if c.personal.Some? then base["personal" := PersonalJson(c.personal.value)] else base;
    Obj(if c.salary.Some? then withPersonal["salary" := SalaryJson(c.salary.value)] else withPersonal)
  }

  /** The elements a loop `for exp in v: exp.get(...)` gets to call `.get`
      on. A list gives its items. Iterating a dict or a string gives its keys
      or characters, which are strings: the first `.get` on one raises
      AttributeError, so only an empty dict or string gets through. Anything
      else is not iterable. */
  function EntriesOf(v: Value): (r: Result<seq<Value>>)
    ensures v.Arr? ==> r == Ok(v.items)
    ensures r.Ok? ==> v.Arr? || v == Obj(map[]) || v == Str("")
  {
    match v
    case Arr(items) => Ok(items)
    case Obj(m) => if m == map[] then Ok([]) else Err(AttributeError)
    case Str(s) => if s == "" then Ok([]) else Err(AttributeError)
    case _ => Err(TypeError)
  }

  /** The fields decompress writes for the `personal` section: the applicant
      link and the four values, '' for a missing key. */
  function PersonalFields(applicant: string, p: Value): (r: Result<Fields>)
    ensures r.Ok? <==> p.Obj?
  {
    // `.get` raises AttributeError on anything but a dict
    if !p.Obj? then Err(AttributeError)
    else
      var m := p.entries;
      Ok(map["Applicant ID" := Arr([Str(applicant)]), "Full Name" := FieldOr(m, "name", Str("")),
             "Email" := FieldOr(m, "email", Str("")), "Location" := FieldOr(m, "location", Str("")),
             "LinkedIn" := FieldOr(m, "linkedin", Str(""))])
  }

  /** The fields decompress writes for one experience entry. */
  function ExperienceFields(applicant: string, e: Value): (r: Result<Fields>)
    ensures r.Ok? <==> e.Obj?
  {
    if !e.Obj? then Err(AttributeError)
    else
      var m := e.entries;
      Ok(map["Applicant ID" := Arr([Str(applicant)]), "Company" := FieldOr(m, "company", Str("")),
             "Title" := FieldOr(m, "title", Str("")), "Start Date" := FieldOr(m, "start", Str("")),
             "End Date" := FieldOr(m, "end", Str("")), "Technologies" := FieldOr(m, "technologies", Str(""))])
  }

  /** The fields decompress writes for the `salary` section: rates and
      availability 0 and currency 'USD' for a missing key. */
  function SalaryFields(applicant: string, s: Value): (r: Result<Fields>)
    ensures r.Ok? <==> s.Obj?
  {
    if !s.Obj? then Err(AttributeError)
    else
      var m := s.entries;
      Ok(map["Applicant ID" := Arr([Str(applicant)]), "Preferred Rate" := FieldOr(m, "preferred_rate", Num(0)),
             "Minimum Rate" := FieldOr(m, "minimum_rate", Num(0)), "Currency" := FieldOr(m, "currency", Str("USD")),
             "Availability" := FieldOr(m, "availability", Num(0))])
  }

  /** The fields for every entry, in order; the first entry that is not a
      dict raises. */
  function ExperienceFieldsAll(applicant: string, items: seq<Value>): (r: Result<seq<Fields>>)
    ensures r.Ok? ==> |r.value| == |items|
    ensures r.Ok? <==> forall i :: 0 <= i < |items| ==> items[i].Obj?
    ensures r.Ok? ==> forall i :: 0 <= i < |items| ==> ExperienceFields(applicant, items[i]) == Ok(r.value[i])
  {
    if items == [] then Ok([])
    else
      var f :- ExperienceFields(applicant, items[0]);
      var rest :- ExperienceFieldsAll(applicant, items[1..]);
      assert forall i :: 1 <= i < |items| ==> items[i] == items[1..][i - 1];
      Ok([f] + rest)
  }

  /** Writing a section and reading it back: whatever fields the record had
      before, the fields decompress writes (merged over them, as an update
      does, or alone, as a create does) read back as the section it wrote. */
  lemma PersonalRoundTrip(applicant: string, p: Personal, before: Fields)
    ensures PersonalFields(applicant, PersonalJson(p)).Ok?
    ensures var f := PersonalFields(applicant, PersonalJson(p)).value;
      PersonalOf(before + f) == p && PersonalOf(f) == p
      && f["Applicant ID"] == Arr([Str(applicant)])
  {
  }

  lemma ExperienceRoundTrip(applicant: string, e: Experience)
    ensures ExperienceFields(applicant, ExperienceJson(e)).Ok?
    ensures var f := ExperienceFields(applicant, ExperienceJson(e)).value;
      ExperienceOf(f) == e && f["Applicant ID"] == Arr([Str(applicant)])
  {
  }

  lemma SalaryRoundTrip(applicant: string, s: Salary, before: Fields)
    ensures SalaryFields(applicant, SalaryJson(s)).Ok?
    ensures var f := SalaryFields(applicant, SalaryJson(s)).value;
      SalaryOf(before + f) == s && SalaryOf(f) == s
      && f["Applicant ID"] == Arr([Str(applicant)])
  {
  }

  /** The experience list of a canonical record is written back entry by
      entry and each entry reads back unchanged. */
  lemma {:induction false} ExperienceListRoundTrip(applicant: string, es: seq<Experience>)
    ensures ExperienceFieldsAll(applicant, ExperienceListJson(es)).Ok?
    ensures var fs := ExperienceFieldsAll(applicant, ExperienceListJson(es)).value;
      forall i :: 0 <= i < |es| ==> ExperienceOf(fs[i]) == es[i] && fs[i]["Applicant ID"] == Arr([Str(applicant)])
  {
    var vs := ExperienceListJson(es);
    assert forall i :: 0 <= i < |vs| ==> vs[i].Obj?;
    var fs := ExperienceFieldsAll(applicant, vs).value;
    forall i | 0 <= i < |es|
      ensures ExperienceOf(fs[i]) == es[i] && fs[i]["Applicant ID"] == Arr([Str(applicant)])
    {
      ExperienceRoundTrip(applicant, es[i]);
    }
  }
}
