/** The record transcoder: `compress_to_json` (with its lookup
    `get_applicant_data`) turns an applicant's rows in the three normalised
    tables into one canonical record; `decompress_from_json` writes a parsed
    canonical document back into the tables of the store. */
module Transcoder {
  import opened Json
  import opened Records
  import opened Canonical
  import opened Store

  const PersonalTable := "Personal Details"
  const ExperienceTable := "Work Experience"
  const SalaryTable := "Salary Preferences"

  /** What `get_applicant_data` returns when it succeeds. */
  datatype ApplicantData = ApplicantData(personal: Option<Record>, experience: seq<Record>, salary: Option<Record>)

  /** `get_applicant_data`: the first linked personal record, every linked
      experience record and the first linked salary record. Any exception
      (a failed fetch, a link test that raises) gives `{}`, here None. The
      three fetch results are inputs. */
  function GetApplicantData(applicant: string, personal: Result<seq<Record>>, experience: Result<seq<Record>>,
                            salary: Result<seq<Record>>): (r: Option<ApplicantData>)
    ensures personal.Err? || experience.Err? || salary.Err? ==> r.None?
    ensures r.Some? ==> personal.Ok? && experience.Ok? && salary.Ok?
    // what is found is linked to the applicant and comes from its table
    ensures r.Some? && r.value.personal.Some? ==>
      r.value.personal.value in personal.value && IsLinked(r.value.personal.value, applicant)
    ensures r.Some? ==> forall k :: 0 <= k < |r.value.experience| ==>
      r.value.experience[k] in experience.value && IsLinked(r.value.experience[k], applicant)
    ensures r.Some? && r.value.salary.Some? ==>
      r.value.salary.value in salary.value && IsLinked(r.value.salary.value, applicant)
    // a fetched table whose link test raises gives None
    ensures personal.Ok? && FirstLinked(personal.value, applicant).Err? ==> r.None?
    ensures experience.Ok? && AllLinked(experience.value, applicant).Err? ==> r.None?
    ensures salary.Ok? && FirstLinked(salary.value, applicant).Err? ==> r.None?
  {
    if personal.Err? || experience.Err? || salary.Err? then None
    else
      AllLinkedKeeps(experience.value, applicant);
      match (FirstLinked(personal.value, applicant), AllLinked(experience.value, applicant), FirstLinked(salary.value, applicant))
      case (Ok(p), Ok(e), Ok(s)) => Some(ApplicantData(p, e, s))
      case _ => None
  }

  function ExperienceList(rs: seq<Record>): (es: seq<Experience>)
    ensures |es| == |rs|
    ensures forall i :: 0 <= i < |rs| ==> es[i] == ExperienceOf(rs[i].fields)
  {
    seq(|rs|, i requires 0 <= i < |rs| => ExperienceOf(rs[i].fields))
  }

  /** `compress_to_json`. When the lookup returned `{}`, indexing it raises
      KeyError and compress itself returns `{}`: None. */
  function Compress(applicant: string, personal: Result<seq<Record>>, experience: Result<seq<Record>>,
                    salary: Result<seq<Record>>): Option<Canonical>
  {
    match GetApplicantData(applicant, personal, experience, salary)
    case None => None
    case Some(d) =>
      Some(Canonical(PersonalOfRecord(d.personal), ExperienceList(d.experience), SalaryOfRecord(d.salary)))
  }

  /** `if data['personal']: ...`: the section is built only from a found record. */
  function PersonalOfRecord(r: Option<Record>): (p: Option<Personal>)
    ensures p.Some? <==> r.Some?
  {
    if r.Some? then Some(PersonalOf(r.value.fields)) else None
  }

  function SalaryOfRecord(r: Option<Record>): (s: Option<Salary>)
    ensures s.Some? <==> r.Some?
  {
    if r.Some? then Some(SalaryOf(r.value.fields)) else None
  }

  /** Compress on three fetched tables whose lookups do not raise. */
  lemma CompressOf(applicant: string, personal: seq<Record>, experience: seq<Record>, salary: seq<Record>)
    requires FirstLinked(personal, applicant).Ok? && AllLinked(experience, applicant).Ok? && FirstLinked(salary, applicant).Ok?
    ensures Compress(applicant, Ok(personal), Ok(experience), Ok(salary))
      == Some(Canonical(PersonalOfRecord(FirstLinked(personal, applicant).value),
                        ExperienceList(AllLinked(experience, applicant).value),
                        SalaryOfRecord(FirstLinked(salary, applicant).value)))
  {
  }

  /** `compress_to_json` as the source runs it, building the experience list
      with an append loop. */
  method CompressToJson(applicant: string, personal: Result<seq<Record>>, experience: Result<seq<Record>>,
                        salary: Result<seq<Record>>) returns (r: Option<Canonical>)
    ensures r == Compress(applicant, personal, experience, salary)
  {
    var data := GetApplicantData(applicant, personal, experience, salary);
    if data.None? {
      return None;
    }
    var d := data.value;
    var p := PersonalOfRecord(d.personal);
    var es: seq<Experience> := [];
    for i := 0 to |d.experience|
      invariant |es| == i
      invariant forall k :: 0 <= k < i ==> es[k] == ExperienceOf(d.experience[k].fields)
    {
      es := es + [ExperienceOf(d.experience[i].fields)];
    }
    var s := SalaryOfRecord(d.salary);
    assert es == ExperienceList(d.experience);
    r := Some(Canonical(p, es, s));
  }

  /** The first linked record of a table, when there is one. */
  ghost predicate FirstLinkedAtIndex(rs: seq<Record>, applicant: string, i: int) {
    0 <= i < |rs| && IsLinked(rs[i], applicant) && forall j :: 0 <= j < i ==> !IsLinked(rs[j], applicant)
  }

  /** What compress promises on tables whose link fields can be read:
      `personal` is present exactly when some personal record is linked, and
      then comes from the first one; `experience` has one entry per linked
      experience record, in table order; `salary` likewise follows the first
      linked salary record. */
  lemma CompressSpec(applicant: string, personal: seq<Record>, experience: seq<Record>, salary: seq<Record>)
    requires AllLinkReadable(personal) && AllLinkReadable(experience) && AllLinkReadable(salary)
    ensures var r := Compress(applicant, Ok(personal), Ok(experience), Ok(salary));
      && r.Some?
      && (r.value.personal.Some? <==> exists i :: 0 <= i < |personal| && IsLinked(personal[i], applicant))
      && (r.value.personal.Some? ==>
            exists i :: FirstLinkedAtIndex(personal, applicant, i) && r.value.personal.value == PersonalOf(personal[i].fields))
      && (exists pos: seq<nat> ::
            && |pos| == |r.value.experience|
            && Increasing(pos)
            && LinkedExactlyAt(experience, applicant, pos)
            && forall k :: 0 <= k < |pos| ==> pos[k] < |experience| && r.value.experience[k] == ExperienceOf(experience[pos[k]].fields))
      && (r.value.salary.Some? <==> exists i :: 0 <= i < |salary| && IsLinked(salary[i], applicant))
      && (r.value.salary.Some? ==>
            exists i :: FirstLinkedAtIndex(salary, applicant, i) && r.value.salary.value == SalaryOf(salary[i].fields))
  {
    CompressOf(applicant, personal, experience, salary) by {
      FirstLinkedSpec(personal, applicant);
      FirstLinkedSpec(salary, applicant);
      AllLinkedSpec(experience, applicant);
    }
    PersonalPart(personal, applicant);
    ExperiencePart(experience, applicant);
    SalaryPart(salary, applicant);
  }

  lemma PersonalPart(rs: seq<Record>, applicant: string)
    requires AllLinkReadable(rs)
    ensures FirstLinked(rs, applicant).Ok?
    ensures var p := PersonalOfRecord(FirstLinked(rs, applicant).value);
      && (p.Some? <==> exists i :: 0 <= i < |rs| && IsLinked(rs[i], applicant))
      && (p.Some? ==> exists i :: FirstLinkedAtIndex(rs, applicant, i) && p.value == PersonalOf(rs[i].fields))
  {
    FirstLinkedSpec(rs, applicant);
  }

  lemma SalaryPart(rs: seq<Record>, applicant: string)
    requires AllLinkReadable(rs)
    ensures FirstLinked(rs, applicant).Ok?
    ensures var s := SalaryOfRecord(FirstLinked(rs, applicant).value);
      && (s.Some? <==> exists i :: 0 <= i < |rs| && IsLinked(rs[i], applicant))
      && (s.Some? ==> exists i :: FirstLinkedAtIndex(rs, applicant, i) && s.value == SalaryOf(rs[i].fields))
  {
    FirstLinkedSpec(rs, applicant);
  }

  lemma ExperiencePart(rs: seq<Record>, applicant: string)
    requires AllLinkReadable(rs)
    ensures AllLinked(rs, applicant).Ok?
    ensures var es := ExperienceList(AllLinked(rs, applicant).value);
      exists pos: seq<nat> ::
        && |pos| == |es|
        && Increasing(pos)
        && LinkedExactlyAt(rs, applicant, pos)
        && forall k :: 0 <= k < |pos| ==> pos[k] < |rs| && es[k] == ExperienceOf(rs[pos[k]].fields)
  {
    AllLinkedSpec(rs, applicant);
    var kept := AllLinked(rs, applicant).value;
    var pos :| Picks(rs, applicant, kept, pos);
    var es := ExperienceList(kept);
    assert forall k :: 0 <= k < |pos| ==> pos[k] < |rs| && es[k] == ExperienceOf(rs[pos[k]].fields);
  }

  // ---------------------------------------------------------------------
  // decompress_from_json

  /** The two sections written as a single record. */
  datatype Section = PersonalSection | SalarySection

  function SectionKey(s: Section): string {
    match s
    case PersonalSection => "personal"
    case SalarySection => "salary"
  }

  function SectionTable(s: Section): string {
    match s
    case PersonalSection => PersonalTable
    case SalarySection => SalaryTable
  }

  function SectionFields(s: Section, applicant: string, v: Value): Result<Fields> {
    match s
    case PersonalSection => PersonalFields(applicant, v)
    case SalarySection => SalaryFields(applicant, v)
  }

  /** The fields decompress computes for a single-record section, before any
      remote call for it: None when the section is absent (`key in data` is
      false); an error when the membership test, the indexing or a `.get`
      raises. */
  function PlanSection(applicant: string, data: Value, s: Section): (r: Result<Option<Fields>>)
    ensures data.Obj? ==> (r.Ok? <==> SectionKey(s) !in data.entries || data.entries[SectionKey(s)].Obj?)
    ensures data.Obj? ==> (r == Ok(None) <==> SectionKey(s) !in data.entries)
    ensures !data.Obj? ==> r.Err? || r == Ok(None)
    ensures r.Ok? && r.value.Some? ==> ApplicantIdField in r.value.value && r.value.value[ApplicantIdField] == Arr([Str(applicant)])
  {
    match Contains(data, SectionKey(s))
    case Err(e) => Err(e)
    case Ok(false) => Ok(None)
    case Ok(true) =>
      match Index(data, SectionKey(s))
      case Err(e) => Err(e)
      case Ok(v) =>
        match SectionFields(s, applicant, v)
        case Err(e) => Err(e)
        case Ok(f) => Ok(Some(f))
  }

  /** The records decompress creates for the `experience` section, or None
      when the section is absent. */
  function PlanExperience(applicant: string, data: Value): (r: Result<Option<seq<Fields>>>)
    ensures data.Obj? && "experience" !in data.entries ==> r == Ok(None)
    ensures data.Obj? && "experience" in data.entries && data.entries["experience"].Arr? ==>
      (r.Ok? <==> forall i :: 0 <= i < |data.entries["experience"].items| ==> data.entries["experience"].items[i].Obj?)
    ensures r.Ok? && r.value.Some? ==> forall i :: 0 <= i < |r.value.value| ==>
      ApplicantIdField in r.value.value[i] && r.value.value[i][ApplicantIdField] == Arr([Str(applicant)])
  {
    match Contains(data, "experience")
    case Err(e) => Err(e)
    case Ok(false) => Ok(None)
    case Ok(true) =>
      match Index(data, "experience")
      case Err(e) => Err(e)
      case Ok(v) =>
        match EntriesOf(v)
        case Err(e) => Err(e)
        case Ok(items) =>
          match ExperienceFieldsAll(applicant, items)
          case Err(e) => Err(e)
          case Ok(fs) => Ok(Some(fs))
  }

  /** What a document asks decompress to write. */
  datatype Writes = Writes(personal: Option<Fields>, experience: Option<seq<Fields>>, salary: Option<Fields>)

  function Plan(applicant: string, data: Value): Result<Writes> {
    match (PlanSection(applicant, data, PersonalSection), PlanExperience(applicant, data),
           PlanSection(applicant, data, SalarySection))
    case (Ok(p), Ok(e), Ok(s)) => Ok(Writes(p, e, s))
    case _ => Err(ValueError)
  }

  /** The ids of the records of `rs` linked to the applicant. */
  function LinkedIds(rs: seq<Record>, applicant: string): set<RecordId> {
    if rs == [] then {}
    else
      var last := rs[|rs| - 1];
      LinkedIds(rs[..|rs| - 1], applicant) + (if IsLinked(last, applicant) then {last.id} else {})
  }

  lemma {:induction false} LinkedIdsSpec(rs: seq<Record>, applicant: string, id: RecordId)
    ensures id in LinkedIds(rs, applicant) <==> exists i :: 0 <= i < |rs| && rs[i].id == id && IsLinked(rs[i], applicant)
  {
    if rs != [] {
      var init := rs[..|rs| - 1];
      LinkedIdsSpec(init, applicant, id);
      if id in LinkedIds(init, applicant) {
        var i :| 0 <= i < |init| && init[i].id == id && IsLinked(init[i], applicant);
        assert rs[i] == init[i];
      }
      if i :| 0 <= i < |rs| - 1 && rs[i].id == id && IsLinked(rs[i], applicant) {
        assert init[i] == rs[i];
      }
    }
  }

  lemma LinkedIdsStep(rs: seq<Record>, applicant: string, j: nat)
    requires j < |rs|
    ensures LinkedIds(rs[..j + 1], applicant)
      == LinkedIds(rs[..j], applicant) + (if IsLinked(rs[j], applicant) then {rs[j].id} else {})
  {
    assert rs[..j + 1][..j] == rs[..j];
  }

  /** A table's state after its single-record section was written: the
      first linked record has the fields merged in (PATCH), or, when no
      record is linked, a record with exactly those fields is appended
      (POST). */
  ghost predicate SingleWritten(before: seq<Record>, after: seq<Record>, applicant: string, f: Fields) {
    match FirstLinked(before, applicant)
    case Ok(Some(r)) => after == Patched(before, r.id, f)
    case Ok(None) => |after| == |before| + 1 && after[..|before|] == before && after[|before|].fields == f
    case Err(_) => false
  }

  /** The experience table after the section was written: every record
      linked to the applicant is deleted, except those whose DELETE was
      refused, and one record per entry is appended, in order. */
  ghost predicate ExperienceReplaced(before: seq<Record>, after: seq<Record>, applicant: string, fs: seq<Fields>,
                                     refused: set<RecordId>)
  {
    && AllLinkReadable(before)
    && refused <= LinkedIds(before, applicant)
    && AppendedWith(Without(before, LinkedIds(before, applicant) - refused), after, fs)
  }

  /** `after` is `before` followed by one record per entry of `fs`, with
      those fields. */
  ghost predicate AppendedWith(before: seq<Record>, after: seq<Record>, fs: seq<Fields>) {
    && |after| == |before| + |fs|
    && after[..|before|] == before
    && forall i :: 0 <= i < |fs| ==> after[|before| + i].fields == fs[i]
  }

  ghost predicate Readable(tables: map<string, seq<Record>>, t: string) {
    t in tables && AllLinkReadable(tables[t])
  }

  ghost predicate SectionWritten(before: map<string, seq<Record>>, after: map<string, seq<Record>>, t: string,
                                 applicant: string, w: Option<Fields>)
  {
    match w
    case None => t in before ==> t in after && after[t] == before[t]
    case Some(f) => t in before && t in after && SingleWritten(before[t], after[t], applicant, f)
  }

  ghost predicate ExperienceWritten(before: map<string, seq<Record>>, after: map<string, seq<Record>>,
                                    applicant: string, w: Option<seq<Fields>>, refused: set<RecordId>)
  {
    match w
    case None => refused == {} && (ExperienceTable in before ==> ExperienceTable in after && after[ExperienceTable] == before[ExperienceTable])
    case Some(fs) =>
      && ExperienceTable in before && ExperienceTable in after
      && ExperienceReplaced(before[ExperienceTable], after[ExperienceTable], applicant, fs, refused)
  }

  /** The three sections of a plan applied to the store's tables. */
  ghost predicate Applied(before: map<string, seq<Record>>, after: map<string, seq<Record>>, applicant: string,
                          w: Writes, refused: set<RecordId>)
  {
    && OnlySections(before, after)
    && SectionWritten(before, after, PersonalTable, applicant, w.personal)
    && ExperienceWritten(before, after, applicant, w.experience, refused)
    && SectionWritten(before, after, SalaryTable, applicant, w.salary)
  }

  /** No table other than the three section tables differs. */
  ghost predicate OnlySections(before: map<string, seq<Record>>, after: map<string, seq<Record>>) {
    && after.Keys == before.Keys
    && forall n :: n in before && n != PersonalTable && n != ExperienceTable && n != SalaryTable ==> after[n] == before[n]
  }

  /** One single-record section of decompress: compute its fields, list the
      table, then PATCH the first linked record or POST a new one. A failure
      at any step writes nothing. */
  method WriteSection(store: RemoteStore, applicant: string, data: Value, s: Section) returns (ok: bool)
    requires store.Valid()
    modifies store
    ensures store.Valid() && OnlyChanged(old(store.tables), store.tables, SectionTable(s))
    ensures !ok ==> store.tables == old(store.tables)
    ensures ok ==> && PlanSection(applicant, data, s).Ok?
                   && SectionWritten(old(store.tables), store.tables, SectionTable(s), applicant, PlanSection(applicant, data, s).value)
    ensures PlanSection(applicant, data, s).Ok? && old(store.transport) == [] && Readable(old(store.tables), SectionTable(s))
      ==> ok && store.transport == []
  {
    var plan := PlanSection(applicant, data, s);
    if plan.Err? {
      return false;
    }
    if plan.value.None? {
      return true;
    }
    ok := WriteFields(store, applicant, SectionTable(s), plan.value.value);
  }

  /** The remote part of a single-record section: list the table, then
      PATCH the first linked record or POST a new one. */
  method WriteFields(store: RemoteStore, applicant: string, t: string, f: Fields) returns (ok: bool)
    requires store.Valid()
    modifies store
    ensures store.Valid() && OnlyChanged(old(store.tables), store.tables, t)
    ensures !ok ==> store.tables == old(store.tables)
    ensures ok ==> SectionWritten(old(store.tables), store.tables, t, applicant, Some(f))
    ensures old(store.transport) == [] && Readable(old(store.tables), t) ==> ok && store.transport == []
  {
    ghost var before := store.tables;
    var listed := store.List(t);
    if listed.Err? {
      return false;
    }
    var found := FirstLinked(listed.value, applicant);
    if Readable(before, t) {
      FirstLinkedSpec(listed.value, applicant);
    }
    if found.Err? {
      return false;
    }
    if found.value.Some? {
      FirstLinkedHasId(listed.value, applicant);
      ok := store.Update(t, found.value.value.id, f);
      if ok {
        PatchWritten(before, store.tables, t, applicant, f);
      }
    } else {
      ok := store.Create(t, f);
      if ok {
        PostWritten(before, store.tables, t, applicant, f, old(store.nextId));
      }
    }
  }

  lemma FirstLinkedHasId(rs: seq<Record>, applicant: string)
    requires FirstLinked(rs, applicant).Ok? && FirstLinked(rs, applicant).value.Some?
    ensures HasId(rs, FirstLinked(rs, applicant).value.value.id)
  {
    var r := FirstLinked(rs, applicant).value.value;
    var i :| 0 <= i < |rs| && rs[i] == r;
    assert HasId(rs, rs[i].id);
  }

  /** A PATCH of the first linked record writes the section. */
  lemma PatchWritten(before: map<string, seq<Record>>, after: map<string, seq<Record>>, t: string, applicant: string, f: Fields)
    requires t in before && FirstLinked(before[t], applicant).Ok? && FirstLinked(before[t], applicant).value.Some?
    requires after == before[t := Patched(before[t], FirstLinked(before[t], applicant).value.value.id, f)]
    ensures SectionWritten(before, after, t, applicant, Some(f)) && OnlyChanged(before, after, t)
  {
  }

  /** A POST, when no record is linked, writes the section. */
  lemma PostWritten(before: map<string, seq<Record>>, after: map<string, seq<Record>>, t: string, applicant: string,
                    f: Fields, id: RecordId)
    requires t in before && FirstLinked(before[t], applicant) == Ok(None)
    requires after == before[t := before[t] + [Record(id, f)]]
    ensures SectionWritten(before, after, t, applicant, Some(f)) && OnlyChanged(before, after, t)
  {
    assert (before[t] + [Record(id, f)])[..|before[t]|] == before[t];
  }

  /** The experience section of decompress: list the table, send a DELETE
      for each record of that listing linked to the applicant, then POST one
      record per entry of the section. `refused` is the set of ids whose
      DELETE was refused. */
  method ReplaceExperience(store: RemoteStore, applicant: string, data: Value) returns (ok: bool, ghost refused: set<RecordId>)
    requires store.Valid()
    modifies store
    ensures store.Valid() && OnlyChanged(old(store.tables), store.tables, ExperienceTable)
    ensures ok ==> && PlanExperience(applicant, data).Ok?
                   && ExperienceWritten(old(store.tables), store.tables, applicant, PlanExperience(applicant, data).value, refused)
    ensures PlanExperience(applicant, data).Ok? && old(store.transport) == [] && Readable(old(store.tables), ExperienceTable)
      ==> ok && refused == {} && store.transport == []
  {
    refused := {};
    var present := Contains(data, "experience");
    if present.Err? {
      return false, refused;
    }
    if !present.value {
      return true, refused;
    }
    var listed := store.List(ExperienceTable);
    if listed.Err? {
      return false, refused;
    }
    ghost var before := store.tables;
    ok, refused := DeleteLinked(store, applicant, listed.value);
    if !ok {
      return false, refused;
    }
    var v := Index(data, "experience");
    if v.Err? {
      return false, refused;
    }
    var items := EntriesOf(v.value);
    if items.Err? {
      return false, refused;
    }
    ghost var mid := store.tables;
    ok := CreateEntries(store, applicant, items.value);
    if ok {
      var fs := ExperienceFieldsAll(applicant, items.value).value;
      assert PlanExperience(applicant, data) == Ok(Some(fs));
      ghost var after := store.tables[ExperienceTable];
      assert AppendedWith(mid[ExperienceTable], after, fs);
      assert ExperienceReplaced(before[ExperienceTable], after, applicant, fs, refused);
    }
  }

  /** The DELETE loop over a listing of the experience table, which is still
      the table's state: a link test that raises or a DELETE that is not
      answered ends it; a refused DELETE leaves its record in place. */
  method DeleteLinked(store: RemoteStore, applicant: string, existing: seq<Record>) returns (ok: bool, ghost refused: set<RecordId>)
    requires store.Valid() && ExperienceTable in store.tables && store.tables[ExperienceTable] == existing
    modifies store
    ensures store.Valid() && OnlyChanged(old(store.tables), store.tables, ExperienceTable)
    ensures ok ==> && AllLinkReadable(existing)
                   && refused <= LinkedIds(existing, applicant)
                   && store.tables[ExperienceTable] == Without(existing, LinkedIds(existing, applicant) - refused)
    ensures AllLinkReadable(existing) && old(store.transport) == [] ==> ok && refused == {} && store.transport == []
  {
    refused := {};
    NothingDeletedYet(existing, applicant);
    assert DistinctIds(existing);
    for j := 0 to |existing|
      invariant store.Valid() && OnlyChanged(old(store.tables), store.tables, ExperienceTable)
      invariant forall i :: 0 <= i < j ==> LinkReadable(existing[i])
      invariant refused <= LinkedIds(existing[..j], applicant)
      invariant store.tables[ExperienceTable] == Without(existing, LinkedIds(existing[..j], applicant) - refused)
      invariant old(store.transport) == [] ==> store.transport == [] && refused == {}
    {
      ok, refused := DeleteOne(store, applicant, existing, j, refused);
      if !ok {
        return false, refused;
      }
    }
    assert existing[..|existing|] == existing;
    ok := true;
  }

  lemma NothingDeletedYet(existing: seq<Record>, applicant: string)
    ensures LinkedIds(existing[..0], applicant) == {}
    ensures Without(existing, LinkedIds(existing[..0], applicant) - {}) == existing
  {
    assert existing[..0] == [];
    var none: set<RecordId> := {};
    assert LinkedIds(existing[..0], applicant) - none == none;
    WithoutNothing(existing, none);
  }

  /** One turn of the DELETE loop, at position `j` of the listing. */
  method DeleteOne(store: RemoteStore, applicant: string, existing: seq<Record>, j: nat, ghost refused: set<RecordId>)
    returns (ok: bool, ghost refused': set<RecordId>)
    requires store.Valid() && ExperienceTable in store.tables && j < |existing| && DistinctIds(existing)
    requires refused <= LinkedIds(existing[..j], applicant)
    requires store.tables[ExperienceTable] == Without(existing, LinkedIds(existing[..j], applicant) - refused)
    modifies store
    ensures store.Valid() && OnlyChanged(old(store.tables), store.tables, ExperienceTable)
    ensures ok ==> && LinkReadable(existing[j])
                   && refused' <= LinkedIds(existing[..j + 1], applicant)
                   && store.tables[ExperienceTable] == Without(existing, LinkedIds(existing[..j + 1], applicant) - refused')
    ensures LinkReadable(existing[j]) && old(store.transport) == [] && refused == {} ==> ok && refused' == {} && store.transport == []
  {
    refused' := refused;
    var linked := Linked(existing[j], applicant);
    if linked.Err? {
      return false, refused';
    }
    if !linked.value {
      UnlinkedStep(existing, applicant, j);
      return true, refused';
    }
    var id := existing[j].id;
    NotYetSeen(existing, applicant, j, refused);
    var raised, declined := store.Delete(ExperienceTable, id);
    if raised {
      return false, refused';
    }
    if declined {
      RefusedStep(existing, applicant, j, refused);
      refused' := refused + {id};
    } else {
      DeletedStep(existing, applicant, j, refused);
    }
    ok := true;
  }

  lemma UnlinkedStep(existing: seq<Record>, applicant: string, j: nat)
    requires j < |existing| && Linked(existing[j], applicant) == Ok(false)
    ensures LinkReadable(existing[j]) && LinkedIds(existing[..j + 1], applicant) == LinkedIds(existing[..j], applicant)
  {
    LinkedIdsStep(existing, applicant, j);
  }

  /** The record at `j` is not deleted before its turn: ids are distinct. */
  lemma NotYetSeen(existing: seq<Record>, applicant: string, j: nat, refused: set<RecordId>)
    requires j < |existing| && DistinctIds(existing)
    ensures existing[j].id !in LinkedIds(existing[..j], applicant)
    ensures existing[j] in Without(existing, LinkedIds(existing[..j], applicant) - refused)
  {
    LinkedIdsSpec(existing[..j], applicant, existing[j].id);
  }

  /** A refused DELETE: the record stays, and its id joins the refused. */
  lemma RefusedStep(existing: seq<Record>, applicant: string, j: nat, refused: set<RecordId>)
    requires j < |existing| && DistinctIds(existing) && Linked(existing[j], applicant) == Ok(true)
    requires refused <= LinkedIds(existing[..j], applicant)
    ensures LinkReadable(existing[j]) && refused + {existing[j].id} <= LinkedIds(existing[..j + 1], applicant)
    ensures Without(existing, LinkedIds(existing[..j], applicant) - refused)
         == Without(existing, LinkedIds(existing[..j + 1], applicant) - (refused + {existing[j].id}))
  {
    LinkedIdsStep(existing, applicant, j);
    NotYetSeen(existing, applicant, j, refused);
    SetStep(LinkedIds(existing[..j], applicant), refused, existing[j].id);
  }

  /** A DELETE done: the record's id joins the deleted. */
  lemma DeletedStep(existing: seq<Record>, applicant: string, j: nat, refused: set<RecordId>)
    requires j < |existing| && DistinctIds(existing) && Linked(existing[j], applicant) == Ok(true)
    requires refused <= LinkedIds(existing[..j], applicant)
    ensures LinkReadable(existing[j]) && refused <= LinkedIds(existing[..j + 1], applicant)
    ensures Without(Without(existing, LinkedIds(existing[..j], applicant) - refused), {existing[j].id})
         == Without(existing, LinkedIds(existing[..j + 1], applicant) - refused)
  {
    var seen := LinkedIds(existing[..j], applicant);
    LinkedIdsStep(existing, applicant, j);
    NotYetSeen(existing, applicant, j, refused);
    SetStep(seen, refused, existing[j].id);
    WithoutUnion(existing, seen - refused, {existing[j].id});
  }

  /** Only table `t` may differ. */
  ghost predicate OnlyChanged(before: map<string, seq<Record>>, after: map<string, seq<Record>>, t: string) {
    after.Keys == before.Keys && forall n :: n in before && n != t ==> after[n] == before[n]
  }

  /** The POST loop over the entries of the section: an entry that is not a
      dict raises, after the entries before it were created. */
  method CreateEntries(store: RemoteStore, applicant: string, items: seq<Value>) returns (ok: bool)
    requires store.Valid() && ExperienceTable in store.tables
    modifies store
    ensures store.Valid() && OnlyChanged(old(store.tables), store.tables, ExperienceTable)
    ensures ok ==> && ExperienceFieldsAll(applicant, items).Ok?
                   && AppendedWith(old(store.tables[ExperienceTable]), store.tables[ExperienceTable],
                                   ExperienceFieldsAll(applicant, items).value)
    ensures ExperienceFieldsAll(applicant, items).Ok? && old(store.transport) == [] ==> ok && store.transport == []
  {
    ghost var kept := store.tables[ExperienceTable];
    ghost var written: seq<Fields> := [];
    assert kept[..|kept|] == kept;
    for k := 0 to |items|
      invariant store.Valid() && OnlyChanged(old(store.tables), store.tables, ExperienceTable)
      invariant |written| == k && AppendedWith(kept, store.tables[ExperienceTable], written)
      invariant forall i :: 0 <= i < k ==> ExperienceFields(applicant, items[i]) == Ok(written[i])
      invariant old(store.transport) == [] ==> store.transport == []
    {
      var f := ExperienceFields(applicant, items[k]);
      if f.Err? {
        return false;
      }
      ghost var table := store.tables[ExperienceTable];
      var created := store.Create(ExperienceTable, f.value);
      if !created {
        return false;
      }
      AppendedWithStep(kept, table, written, store.tables[ExperienceTable][|table|], f.value);
      written := written + [f.value];
    }
    ExperienceFieldsAllOf(applicant, items, written);
    ok := true;
  }

  lemma AppendedWithStep(before: seq<Record>, after: seq<Record>, fs: seq<Fields>, r: Record, f: Fields)
    requires AppendedWith(before, after, fs) && r.fields == f
    ensures AppendedWith(before, after + [r], fs + [f])
  {
    assert (after + [r])[..|before|] == after[..|before|];
  }

  lemma ExperienceFieldsAllOf(applicant: string, items: seq<Value>, fs: seq<Fields>)
    requires |fs| == |items| && forall i :: 0 <= i < |items| ==> ExperienceFields(applicant, items[i]) == Ok(fs[i])
    ensures ExperienceFieldsAll(applicant, items) == Ok(fs)
  {
    var r := ExperienceFieldsAll(applicant, items);
    assert r.Ok?;
    assert r.value == fs;
  }

  lemma SetStep(seen: set<RecordId>, refused: set<RecordId>, id: RecordId)
    requires refused <= seen && id !in seen
    ensures (seen + {id}) - refused == (seen - refused) + {id}
    ensures (seen + {id}) - (refused + {id}) == seen - refused
  {
  }

  /** `decompress_from_json`: `doc` is the parsed document, None when the
      text is not valid JSON. The sections are written in the order
      personal, experience, salary; the first failure ends the operation and
      what was written before it stays written. On success, each present
      section was applied as its plan says; with every remote call delivered
      and readable link fields, a document with a valid plan succeeds and no
      DELETE is refused. */
  method Decompress(store: RemoteStore, applicant: string, doc: Option<Value>)
    returns (ok: bool, ghost refused: set<RecordId>, ghost personalWritten: bool, ghost experienceWritten: bool)
    requires store.Valid()
    modifies store
    ensures store.Valid() && OnlySections(old(store.tables), store.tables)
    ensures doc.None? ==> !ok && !personalWritten && store.tables == old(store.tables)
    ensures ok ==> && doc.Some? && Plan(applicant, doc.value).Ok?
                   && Applied(old(store.tables), store.tables, applicant, Plan(applicant, doc.value).value, refused)
    ensures && doc.Some? && Plan(applicant, doc.value).Ok? && old(store.transport) == []
            && Readable(old(store.tables), PersonalTable) && Readable(old(store.tables), ExperienceTable)
            && Readable(old(store.tables), SalaryTable)
            ==> ok && refused == {}
    // what a failure leaves: the sections written before it stay written,
    // and nothing is written before the personal section
    ensures ok ==> personalWritten && experienceWritten
    ensures experienceWritten ==> personalWritten
    ensures personalWritten ==> && doc.Some? && PlanSection(applicant, doc.value, PersonalSection).Ok?
                                && SectionWritten(old(store.tables), store.tables, PersonalTable, applicant,
                                                  PlanSection(applicant, doc.value, PersonalSection).value)
    ensures experienceWritten ==> && doc.Some? && PlanExperience(applicant, doc.value).Ok?
                                  && ExperienceWritten(old(store.tables), store.tables, applicant,
                                                       PlanExperience(applicant, doc.value).value, refused)
    ensures !personalWritten ==> store.tables == old(store.tables)
    ensures !ok ==> Untouched(old(store.tables), store.tables, SalaryTable)
  {
    if doc.None? {
      return false, {}, false, false;
    }
    ok, refused, personalWritten, experienceWritten := ApplyPlan(store, applicant, doc.value);
  }

  /** Table `t` is as it was. */
  ghost predicate Untouched(before: map<string, seq<Record>>, after: map<string, seq<Record>>, t: string) {
    t in before ==> t in after && after[t] == before[t]
  }

  /** Decompress once the text has been parsed: the three sections in
      order, stopping at the first that fails. */
  method ApplyPlan(store: RemoteStore, applicant: string, data: Value)
    returns (ok: bool, ghost refused: set<RecordId>, ghost personalWritten: bool, ghost experienceWritten: bool)
    requires store.Valid()
    modifies store
    ensures store.Valid() && OnlySections(old(store.tables), store.tables)
    ensures ok ==> Plan(applicant, data).Ok? && Applied(old(store.tables), store.tables, applicant, Plan(applicant, data).value, refused)
    ensures && Plan(applicant, data).Ok? && old(store.transport) == []
            && Readable(old(store.tables), PersonalTable) && Readable(old(store.tables), ExperienceTable)
            && Readable(old(store.tables), SalaryTable)
            ==> ok && refused == {}
    ensures ok ==> personalWritten && experienceWritten
    ensures experienceWritten ==> personalWritten
    ensures personalWritten ==> && PlanSection(applicant, data, PersonalSection).Ok?
                                && SectionWritten(old(store.tables), store.tables, PersonalTable, applicant,
                                                  PlanSection(applicant, data, PersonalSection).value)
    ensures experienceWritten ==> && PlanExperience(applicant, data).Ok?
                                  && ExperienceWritten(old(store.tables), store.tables, applicant,
                                                       PlanExperience(applicant, data).value, refused)
    ensures !personalWritten ==> store.tables == old(store.tables)
    ensures !ok ==> Untouched(old(store.tables), store.tables, SalaryTable)
  {
    refused, personalWritten, experienceWritten := {}, false, false;
    PlanParts(applicant, data);
    ghost var t0 := store.tables;
    ghost var smooth := && Plan(applicant, data).Ok? && store.transport == []
                        && Readable(t0, PersonalTable) && Readable(t0, ExperienceTable) && Readable(t0, SalaryTable);
    ok := WriteSection(store, applicant, data, PersonalSection);
    if !ok {
      return;
    }
    personalWritten := true;
    ghost var t1 := store.tables;
    if smooth {
      ReadableKept(t0, t1, PersonalTable, ExperienceTable);
      ReadableKept(t0, t1, PersonalTable, SalaryTable);
    }
    ghost var wp := PlanSection(applicant, data, PersonalSection).value;
    ok, refused, experienceWritten := ApplyRest(store, applicant, data);
    PersonalKept(t0, t1, store.tables, applicant, wp);
    if experienceWritten {
      ExperienceBefore(t0, t1, store.tables, applicant, PlanExperience(applicant, data).value, refused);
    }
    if ok {
      AppliedInOrder(t0, t1, store.tables, applicant, Plan(applicant, data).value, refused);
    }
  }

  /** No table other than the experience and salary tables differs. */
  ghost predicate OnlyRest(before: map<string, seq<Record>>, after: map<string, seq<Record>>) {
    && after.Keys == before.Keys
    && forall n :: n in before && n != ExperienceTable && n != SalaryTable ==> after[n] == before[n]
  }

  /** The experience and salary sections applied to the tables. */
  ghost predicate RestWritten(before: map<string, seq<Record>>, after: map<string, seq<Record>>, applicant: string,
                              e: Option<seq<Fields>>, s: Option<Fields>, refused: set<RecordId>)
  {
    ExperienceWritten(before, after, applicant, e, refused) && SectionWritten(before, after, SalaryTable, applicant, s)
  }

  /** The experience section, then the salary section. A failure of the
      salary write leaves the experience section written; a failure before
      it changes only the experience table. */
  method ApplyRest(store: RemoteStore, applicant: string, data: Value)
    returns (ok: bool, ghost refused: set<RecordId>, ghost experienceWritten: bool)
    requires store.Valid()
    modifies store
    ensures store.Valid() && OnlyRest(old(store.tables), store.tables)
    ensures ok ==> && PlanExperience(applicant, data).Ok? && PlanSection(applicant, data, SalarySection).Ok?
                   && RestWritten(old(store.tables), store.tables, applicant, PlanExperience(applicant, data).value,
                                  PlanSection(applicant, data, SalarySection).value, refused)
    ensures && PlanExperience(applicant, data).Ok? && PlanSection(applicant, data, SalarySection).Ok?
            && old(store.transport) == [] && Readable(old(store.tables), ExperienceTable)
            && Readable(old(store.tables), SalaryTable)
            ==> ok && refused == {}
    ensures ok ==> experienceWritten
    ensures experienceWritten ==> && PlanExperience(applicant, data).Ok?
                                  && ExperienceWritten(old(store.tables), store.tables, applicant,
                                                       PlanExperience(applicant, data).value, refused)
    ensures !ok ==> OnlyChanged(old(store.tables), store.tables, ExperienceTable)
  {
    experienceWritten := false;
    ghost var t1 := store.tables;
    ghost var smooth := && PlanExperience(applicant, data).Ok? && PlanSection(applicant, data, SalarySection).Ok?
                        && store.transport == [] && Readable(t1, ExperienceTable) && Readable(t1, SalaryTable);
    ok, refused := ReplaceExperience(store, applicant, data);
    if !ok {
      return;
    }
    experienceWritten := true;
    ghost var t2 := store.tables;
    if smooth {
      ReadableKept(t1, t2, ExperienceTable, SalaryTable);
    }
    ok := WriteSection(store, applicant, data, SalarySection);
    ExperienceKept(t1, t2, store.tables, applicant, PlanExperience(applicant, data).value, refused);
  }

  lemma ReadableKept(t0: map<string, seq<Record>>, t1: map<string, seq<Record>>, changed: string, t: string)
    requires OnlyChanged(t0, t1, changed) && t != changed && Readable(t0, t)
    ensures Readable(t1, t)
  {
  }

  lemma PlanParts(applicant: string, data: Value)
    ensures Plan(applicant, data).Ok? <==>
      PlanSection(applicant, data, PersonalSection).Ok? && PlanExperience(applicant, data).Ok?
      && PlanSection(applicant, data, SalarySection).Ok?
    ensures Plan(applicant, data).Ok? ==>
      Plan(applicant, data).value == Writes(PlanSection(applicant, data, PersonalSection).value,
        PlanExperience(applicant, data).value, PlanSection(applicant, data, SalarySection).value)
  {
  }

  /** The personal section, then the other two, add up to the plan applied. */
  lemma AppliedInOrder(t0: map<string, seq<Record>>, t1: map<string, seq<Record>>, t2: map<string, seq<Record>>,
                       applicant: string, w: Writes, refused: set<RecordId>)
    requires OnlyChanged(t0, t1, PersonalTable) && SectionWritten(t0, t1, PersonalTable, applicant, w.personal)
    requires OnlyRest(t1, t2) && RestWritten(t1, t2, applicant, w.experience, w.salary, refused)
    ensures Applied(t0, t2, applicant, w, refused)
  {
    PersonalKept(t0, t1, t2, applicant, w.personal);
  }

  /** The personal section once written stays written while the other two
      tables change. */
  lemma PersonalKept(t0: map<string, seq<Record>>, t1: map<string, seq<Record>>, t2: map<string, seq<Record>>,
                     applicant: string, w: Option<Fields>)
    requires SectionWritten(t0, t1, PersonalTable, applicant, w) && OnlyRest(t1, t2)
    ensures SectionWritten(t0, t2, PersonalTable, applicant, w)
  {
  }

  /** The experience section written after the personal one is written
      with respect to the tables before both. */
  lemma ExperienceBefore(t0: map<string, seq<Record>>, t1: map<string, seq<Record>>, t2: map<string, seq<Record>>,
                         applicant: string, w: Option<seq<Fields>>, refused: set<RecordId>)
    requires OnlyChanged(t0, t1, PersonalTable) && ExperienceWritten(t1, t2, applicant, w, refused)
    ensures ExperienceWritten(t0, t2, applicant, w, refused)
  {
  }

  /** The experience section once written stays written while the salary
      table changes. */
  lemma ExperienceKept(t0: map<string, seq<Record>>, t1: map<string, seq<Record>>, t2: map<string, seq<Record>>,
                       applicant: string, w: Option<seq<Fields>>, refused: set<RecordId>)
    requires ExperienceWritten(t0, t1, applicant, w, refused) && OnlyChanged(t1, t2, SalaryTable)
    ensures ExperienceWritten(t0, t2, applicant, w, refused)
  {
  }

  // ---------------------------------------------------------------------
  // The round trip: decompress a compressed record, then compress again

  /** The document of a canonical record always has a plan: every present
      section is a dict and `experience` is a list of dicts. */
  lemma PlanOfCanonical(applicant: string, c: Canonical)
    ensures Plan(applicant, ToJson(c)).Ok?
    ensures var w := Plan(applicant, ToJson(c)).value;
      && (w.personal.Some? <==> c.personal.Some?)
      && (c.personal.Some? ==> w.personal.value == PersonalFields(applicant, PersonalJson(c.personal.value)).value)
      && w.experience == Some(ExperienceFieldsAll(applicant, ExperienceListJson(c.experience)).value)
      && (w.salary.Some? <==> c.salary.Some?)
      && (c.salary.Some? ==> w.salary.value == SalaryFields(applicant, SalaryJson(c.salary.value)).value)
  {
    var data := ToJson(c);
    ExperienceListRoundTrip(applicant, c.experience);
    assert data.entries["experience"] == Arr(ExperienceListJson(c.experience));
    PlanParts(applicant, data);
  }

  /** Reading a single-record section back after it was written: the first
      linked record now carries the written fields over whatever fields it
      had (none, when it was created). */
  lemma {:induction false} SingleReadBack(before: seq<Record>, after: seq<Record>, applicant: string, f: Fields)
    requires AllLinkReadable(before) && DistinctIds(before)
    requires ApplicantIdField in f && f[ApplicantIdField] == Arr([Str(applicant)])
    requires SingleWritten(before, after, applicant, f)
    ensures FirstLinked(after, applicant).Ok? && FirstLinked(after, applicant).value.Some?
    ensures exists base: Fields :: FirstLinked(after, applicant).value.value.fields == base + f
  {
    FirstLinkedSpec(before, applicant);
    match FirstLinked(before, applicant)
    case Ok(Some(r)) =>
      var i :| 0 <= i < |before| && before[i] == r && IsLinked(before[i], applicant)
        && forall j :: 0 <= j < i ==> !IsLinked(before[j], applicant);
      assert forall j :: 0 <= j < i ==> after[j] == before[j];
      assert after[i] == Record(r.id, r.fields + f);
      OwnLinkIsLinked(after[i], applicant);
      assert AllLinkReadable(after[..i]) by {
        forall j | 0 <= j < i ensures LinkReadable(after[..i][j]) {
          assert after[..i][j] == before[j];
        }
      }
      FirstLinkedAt(after, applicant, i);
    case Ok(None) =>
      var n := |before|;
      assert after[n].fields == map[] + f;
      OwnLinkIsLinked(after[n], applicant);
      assert after[..n] == before;
      FirstLinkedAt(after, applicant, n);
  }

  /** A single-record section table after the write: read back as written,
      or unchanged when the document had no such section. */
  lemma SectionReadBack(before: map<string, seq<Record>>, after: map<string, seq<Record>>, t: string, applicant: string,
                        w: Option<Fields>)
    requires Readable(before, t) && DistinctIds(before[t]) && SectionWritten(before, after, t, applicant, w)
    requires w.Some? ==> ApplicantIdField in w.value && w.value[ApplicantIdField] == Arr([Str(applicant)])
    ensures t in after && FirstLinked(after[t], applicant).Ok?
    ensures w.None? ==> FirstLinked(after[t], applicant) == FirstLinked(before[t], applicant)
    ensures w.Some? ==> && FirstLinked(after[t], applicant).value.Some?
                        && exists base: Fields :: FirstLinked(after[t], applicant).value.value.fields == base + w.value
  {
    if w.Some? {
      SingleReadBack(before[t], after[t], applicant, w.value);
    } else {
      FirstLinkedSpec(before[t], applicant);
    }
  }

  /** Reading the experience section back after it was replaced with no
      DELETE refused: the linked records are exactly the appended ones. */
  lemma ExperienceReadBack(before: seq<Record>, after: seq<Record>, applicant: string, fs: seq<Fields>)
    requires ExperienceReplaced(before, after, applicant, fs, {})
    requires forall i :: 0 <= i < |fs| ==> ApplicantIdField in fs[i] && fs[i][ApplicantIdField] == Arr([Str(applicant)])
    ensures AllLinked(after, applicant).Ok?
    ensures |AllLinked(after, applicant).value| == |fs|
    ensures forall i :: 0 <= i < |fs| ==> AllLinked(after, applicant).value[i].fields == fs[i]
  {
    var ids := LinkedIds(before, applicant);
    assert ids - {} == ids;
    var rest := Without(before, ids);
    var tail := after[|rest|..];
    assert after == rest + tail;
    forall j | 0 <= j < |rest| ensures LinkReadable(rest[j]) && !IsLinked(rest[j], applicant) {
      var k :| 0 <= k < |before| && before[k] == rest[j];
      LinkedIdsSpec(before, applicant, rest[j].id);
    }
    AllLinkedOfNone(rest, applicant);
    forall i | 0 <= i < |tail| ensures IsLinked(tail[i], applicant) {
      assert tail[i].fields == fs[i];
      OwnLinkIsLinked(tail[i], applicant);
    }
    AllLinkedOfAll(tail, applicant);
    AllLinkedAppend(rest, tail, applicant);
    assert AllLinked(after, applicant).value == tail;
  }

  /** The experience list written from a canonical record reads back as
      that list. */
  lemma ExperienceListBack(applicant: string, es: seq<Experience>, before: seq<Record>, after: seq<Record>, fs: seq<Fields>)
    requires ExperienceFieldsAll(applicant, ExperienceListJson(es)) == Ok(fs)
    requires ExperienceReplaced(before, after, applicant, fs, {})
    ensures AllLinked(after, applicant).Ok? && ExperienceList(AllLinked(after, applicant).value) == es
  {
    ExperienceListRoundTrip(applicant, es);
    ExperienceReadBack(before, after, applicant, fs);
    var linked := AllLinked(after, applicant).value;
    assert ExperienceList(linked) == es;
  }

  /** Compressing after decompressing a compressed record gives that record
      back: the experience list exactly, and each single-record section as
      written, or as it was when the document had no such section. This
      holds when the tables' link fields are readable, their ids distinct
      and no DELETE was refused. */
  lemma RoundTrip(applicant: string, c: Canonical, before: map<string, seq<Record>>, after: map<string, seq<Record>>)
    requires Readable(before, PersonalTable) && Readable(before, ExperienceTable) && Readable(before, SalaryTable)
    requires DistinctIds(before[PersonalTable]) && DistinctIds(before[SalaryTable])
    requires Plan(applicant, ToJson(c)).Ok?
    requires Applied(before, after, applicant, Plan(applicant, ToJson(c)).value, {})
    ensures Compress(applicant, Ok(before[PersonalTable]), Ok(before[ExperienceTable]), Ok(before[SalaryTable])).Some?
    ensures var prior := Compress(applicant, Ok(before[PersonalTable]), Ok(before[ExperienceTable]), Ok(before[SalaryTable])).value;
      Compress(applicant, Ok(after[PersonalTable]), Ok(after[ExperienceTable]), Ok(after[SalaryTable]))
      == Some(Canonical(if c.personal.Some? then c.personal else prior.personal,
                        c.experience,
                        if c.salary.Some? then c.salary else prior.salary))
  {
    PlanOfCanonical(applicant, c);
    ExperienceListRoundTrip(applicant, c.experience);
    var w := Plan(applicant, ToJson(c)).value;
    var p, e, s := after[PersonalTable], after[ExperienceTable], after[SalaryTable];

    SectionReadBack(before, after, PersonalTable, applicant, w.personal);
    if c.personal.Some? {
      var base: Fields :| FirstLinked(p, applicant).value.value.fields == base + w.personal.value;
      PersonalRoundTrip(applicant, c.personal.value, base);
    }

    ExperienceListBack(applicant, c.experience, before[ExperienceTable], e, w.experience.value);

    SectionReadBack(before, after, SalaryTable, applicant, w.salary);
    if c.salary.Some? {
      var base: Fields :| FirstLinked(s, applicant).value.value.fields == base + w.salary.value;
      SalaryRoundTrip(applicant, c.salary.value, base);
    }
    FirstLinkedSpec(before[PersonalTable], applicant);
    FirstLinkedSpec(before[SalaryTable], applicant);
    AllLinkedSpec(before[ExperienceTable], applicant);
    CompressOf(applicant, before[PersonalTable], before[ExperienceTable], before[SalaryTable]);
    CompressOf(applicant, p, e, s);
  }
}
