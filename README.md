# Mercor contractor applications: a Dafny model of the record pipeline

This project models the core of `MercorAirtableSystem` in `main.py`. That
class keeps contractor applications in an Airtable base. The base has three
normalised tables ('Personal Details', 'Work Experience' and 'Salary
Preferences') plus the 'Applicants' and 'Shortlisted Leads' tables.

The model covers:

- the retried request wrapper;
- paginated listing of a table;
- the per-applicant lookup;
- `compress_to_json`, which builds one canonical JSON record per applicant;
- `decompress_from_json`, which writes a canonical record back into the three tables;
- the shortlist rule, with experience months, tier-1 employers, compensation and location, plus the verdict text;
- `process_shortlist`, which records the verdict;
- the language-model review: its reply parser, its three-request loop and its fallback.

Modules, one per file:

- `Json` (json.dfy): JSON values, and the Python operations the core applies to them. Each operation carries the exception it raises: `dict.get`, `in`, indexing, truthiness, `lower`, `strip`, `replace`, `split('\n')`, `int()` and `str(int)`.
- `Retry` (retry.dfy): `airtable_request`. Attempt `i` gets the outcome `outcome(i)`, and sleeps are recorded rather than performed.
- `Records` (records.dfy): store records, and the "applicant id `in` the 'Applicant ID' field" link test. It provides `next(...)` as `FirstLinked` and the list comprehension as `AllLinked`.
- `Pagination` (pagination.dfy): `get_all_records` over a sequence of page replies.
- `Canonical` (canonical.dfy): the canonical record. It holds the field mapping in both directions, and the fields decompress writes.
- `Store` (store.dfy): an in-memory record store (class `RemoteStore`). It has tables, an id counter and a transport script. The script says how each successive remote call goes: delivered, an error status, or no answer.
- `Transcoder` (transcoder.dfy): `get_applicant_data`, `compress_to_json` and `decompress_from_json`, including the round trip between them.
- `Dates` (dates.dfy): `strptime(s, '%Y-%m-%d')` and the month difference.
- `Eligibility` (eligibility.dfy): `calculate_experience_years`, `has_tier1_experience` and `evaluate_shortlist_criteria`.
- `Shortlist` (shortlist.dfy): `process_shortlist`.
- `Narrative` (narrative.dfy): `llm_evaluation`.

Where the source loops or changes state, the model does the same. Each such member is a `method` whose `ensures` ties it to a specification function or to the new state of the store. Lemmas then prove the source's promises about those functions.

## Model

| member | source | states |
|---|---|---|
| Retry.AirtableRequest | main.py:78-103 | The attempt loop returns the result, attempt count, sleeps and log lines of the specification `Retry`. |
| Retry.PersistentFailure | main.py:82-103 | When every attempt raises a requests exception, there are exactly n attempts. The call sleeps 1, 2, …, 2^(n-2) seconds, logs n-1 warnings then one error, and re-raises the last exception. |
| Retry.ThreeFailures | main.py:78-103 | With the default of three attempts, total failure sleeps 1 then 2 seconds and logs two warnings and an error. |
| Retry.FirstSuccess | main.py:82-94 | The first attempt that responds is returned after j+1 attempts and j backoff sleeps. No error is logged. |
| Retry.OtherExceptionEscapes | main.py:83-96 | An exception that is not a requests exception escapes at once, without a retry or an error log. |
| Retry.NoAttempts | main.py:82 | With `max_retries <= 0` nothing is attempted and the function returns None. |
| Retry.AttemptBounds | main.py:82-103 | For any outcomes, there are between 1 and n attempts. The call sleeps once before each retry with a matching warning, and logs an error exactly when the last allowed attempt raised a requests exception. |
| Pagination.GetAllRecords | main.py:105-123 | The fetch returns the concatenated records of every page up to the first page without a truthy offset. The first request has no offset; each later request carries the previous page's token. A failed page call aborts the fetch. |
| Pagination.ConcatAppend | main.py:116 | Extending the result page by page equals concatenating the page records. |
| Records.OwnLinkIsLinked | main.py:198-210 | A record whose 'Applicant ID' is `[applicant]` passes the link test. |
| Records.FirstLinked | main.py:129-130 | `next(...)` returns a linked record of the table, or raises when a link test raises. |
| Records.FirstLinkedSpec | main.py:129-130 | When no link test raises, the result is the record at the least linked position. It is None exactly when no record is linked. |
| Records.FirstLinkedAt | main.py:129-130 | The first linked record is found whatever follows it. |
| Records.FirstLinkedNone | main.py:129-130 | A table with no linked record gives None. |
| Records.AllLinkedSpec | main.py:133-134 | The comprehension keeps exactly the linked records, in table order. Their positions are strictly increasing and are exactly the linked positions. |
| Records.AllLinkedOfNone | main.py:133-134 | A table with no linked record gives the empty list. |
| Records.AllLinkedOfAll | main.py:133-134 | A table of linked records is kept whole. |
| Records.AllLinkedAppend | main.py:133-134 | Filtering distributes over concatenation. |
| Canonical.EntriesOf | main.py:225 | Iterating a list gives its items. A non-empty dict or string raises AttributeError at the first `.get`. Anything else is not iterable. |
| Canonical.PersonalFields | main.py:197-206 | The personal fields are computed exactly when the section is a dict. |
| Canonical.ExperienceFieldsAll | main.py:225-235 | There is one field map per entry, in order. The computation succeeds exactly when every entry is a dict. |
| Canonical.PersonalRoundTrip | main.py:156-206 | Personal fields written from a canonical section read back as that section, whether merged over old fields or written alone. |
| Canonical.ExperienceRoundTrip | main.py:166-235 | An experience entry written from a canonical entry reads back unchanged. |
| Canonical.SalaryRoundTrip | main.py:176-247 | Salary fields written from a canonical section read back as that section. |
| Canonical.ExperienceListRoundTrip | main.py:165-236 | The experience list is written entry by entry, and each entry reads back unchanged. |
| Canonical.ToJson | main.py:154-186 | The canonical document always has `experience`. It has `personal` or `salary` exactly when that section is present. |
| Store.WithoutNothing | main.py:220-223 | Removing ids that no record carries leaves the table as it was. |
| Store.WithoutUnion | main.py:220-223 | Deleting two id sets one after the other equals deleting their union. |
| Store.WithoutKeepsDistinct | main.py:220-223 | Deletion keeps record ids distinct and below the id counter. |
| Store.RemoteStore.List | main.py:105-123 | A listing returns the table exactly when the call is delivered and the table exists. |
| Store.RemoteStore.Create | main.py:216 | A POST appends one record with a fresh id, or changes nothing on failure. |
| Store.RemoteStore.Update | main.py:213-214 | A PATCH merges the fields into the record with that id, or changes nothing on failure. |
| Store.RemoteStore.Delete | main.py:222-223 | A DELETE whose status is not checked removes the record, is refused and changes nothing, or raises when unanswered. |
| Transcoder.CompressToJson | main.py:149-190 | The append loop builds the record the specification `Compress` describes. A failed lookup gives `{}` (None). |
| Transcoder.CompressSpec | main.py:125-186 | On readable tables, compress succeeds. `personal` is present exactly when some personal record is linked, and then comes from the first one. `experience` has one entry per linked record, in table order. `salary` follows the same rule as `personal`. |
| Transcoder.GetApplicantData | main.py:125-147 | A failed fetch, or a link test that raises, gives `{}` (None). Otherwise each record found comes from its table and is linked to the applicant. |
| Transcoder.PlanSection | main.py:197-247 | A single-record section is absent, or is computed exactly when it is a dict. Its fields always link it to the applicant. |
| Transcoder.PlanExperience | main.py:218-235 | The experience section is absent, or is computed exactly when every entry is a dict. Each entry is linked to the applicant. |
| Transcoder.LinkedIdsSpec | main.py:220-221 | An id is in the linked-id set exactly when some linked record carries it. |
| Transcoder.WriteSection | main.py:197-257 | A section is written after listing its table. The first linked record is PATCHed, or a new one is POSTed. A failure writes nothing. With every call delivered and readable links, the write succeeds. |
| Transcoder.WriteFields | main.py:208-216 | Listing the table, then a PATCH of the first linked record or a POST when none is linked, leaves the section written. A failed call writes nothing. With every call delivered and readable links, it succeeds. |
| Transcoder.ReplaceExperience | main.py:218-236 | Every linked experience record is deleted, except those whose DELETE was refused. Then one record per entry is appended, in order. The step succeeds and nothing is refused when every call is delivered, every entry is a dict and every link field of the table can be read. Only the experience table changes. |
| Transcoder.DeleteLinked | main.py:219-223 | After the DELETE loop, the table is the listing minus the linked records whose DELETE was not refused. |
| Transcoder.CreateEntries | main.py:225-236 | The POST loop appends one record per entry with its fields, in order. |
| Transcoder.Decompress | main.py:192-264 | Malformed JSON writes nothing and returns False. Success means every section was applied as its plan says, and no other table changed. With every call delivered, readable links and a valid plan, it succeeds. On any failure, the sections written before it stay written. If the personal section was not written, nothing changed. The salary table changes only on success. |
| Transcoder.ApplyPlan | main.py:197-260 | The three sections run in order, and the first failure stops the rest. Success means the whole plan was applied. After a failure, the personal section, and the experience section when it was reached and completed, stay written. A failure in the personal section changes nothing. The salary table changes only on success. |
| Transcoder.ApplyRest | main.py:218-257 | The experience section, then the salary section. Success means both were applied as planned and only their two tables changed. When the salary write fails, the experience section stays written. Any failure leaves the salary table as it was. |
| Transcoder.PlanOfCanonical | main.py:154-247 | The document of any canonical record has a plan, which writes exactly that record's sections. |
| Transcoder.SectionReadBack | main.py:208-257 | After a section is written, the first linked record carries the written fields, or is unchanged when the section was absent. |
| Transcoder.ExperienceReadBack | main.py:218-236 | After the experience section is replaced, the linked records are exactly the appended ones. |
| Transcoder.ExperienceListBack | main.py:165-236 | The experience list written from a canonical record reads back as that list. |
| Transcoder.RoundTrip | main.py:149-264 | Compressing after decompressing a compressed record gives the record back. The experience list comes back exactly, and each single-record section as written, or as before when the document lacked it. |
| Dates.ParseYmd | main.py:272-276 | Only real calendar dates are accepted. |
| Dates.ParseFormat | main.py:272-276 | Every real date in zero-padded ISO form parses back to itself. |
| Eligibility.AnyIn | main.py:291-292 | `any(...)` holds exactly when some name is a substring of the text. |
| Eligibility.CalculateExperienceMonths | main.py:266-286 | The loop's month total equals `TotalMonths`. It is the sum of each parsable entry's non-negative span, and the first entry that raises stops it. |
| Eligibility.ErrorStops | main.py:270-284 | Once an entry raises, later entries do not matter. |
| Eligibility.TotalMonthsOk | main.py:270-284 | The count succeeds exactly when no entry raises. |
| Eligibility.FirstErrorRaised | main.py:270-284 | The error raised is that of the first entry that raises. |
| Eligibility.SkippedEntry | main.py:283-284 | An entry whose dates do not parse changes the total nowhere in the list. |
| Eligibility.PresentMeansNow | main.py:273-278 | An end reading 'present', in any letter case, counts up to now, as a missing end does. |
| Eligibility.FourYears | main.py:272-281 | 2020-01-01 to 2024-01-01 counts 48 months. |
| Eligibility.EntryOutcome | main.py:270-284 | An entry raises exactly when it is not a dict, when its start is not a string, or when its start parses and its end is truthy but not a string. It is skipped exactly when a date it needs does not parse. |
| Eligibility.HasTier1Spec | main.py:288-294 | When every company can be read, the answer is whether some entry's lowered company contains a tier-1 name. |
| Eligibility.HasTier1 | main.py:288-294 | True means some entry is tier-1. False means none is. Raising means some entry is not a dict or has a company that is not a string. |
| Eligibility.Tier1StopsEarly | main.py:290-293 | A tier-1 entry decides the answer, even if later entries would raise. |
| Eligibility.AsNumber | main.py:316 | Only numbers and booleans compare with integers. |
| Eligibility.CompensationOf | main.py:311-316 | A success means the salary section is a dict with a comparable rate. The rate and availability default to 0. A pass means the availability was comparable too. |
| Eligibility.CompensationRule | main.py:316 | With numbers for both, compensation passes exactly when the rate is at most 100 and the availability is at least 20. |
| Eligibility.HighRateShortCircuits | main.py:316 | A rate above 100 fails without comparing the availability. |
| Eligibility.LocationOf | main.py:321 | The location is read exactly when `personal` is a dict and its location a string. |
| Eligibility.ReadCriteria | main.py:296-323 | The reads of the evaluation equal `Assess`, and the first that raises decides. |
| Eligibility.EvaluateShortlistCriteria | main.py:296-332 | The verdict and reason equal `Evaluate`. Any exception gives (False, 'Error in evaluation'). |
| Eligibility.Evaluate | main.py:296-332 | The reason is 'Error in evaluation' exactly when the text does not parse or a read raises, and then the candidate fails. |
| Eligibility.CollectReasons | main.py:305-327 | The reasons appended as each test passes are exactly `Reasons`, in the order the tests run. |
| Eligibility.QualifiedPrefix | main.py:325-326 | The reason starts with 'QUALIFIED: ' exactly when the candidate passed. |
| Eligibility.PassedRule | main.py:300-325 | On a document whose reads raise nothing, the candidate passes exactly when three tests pass. Experience: at least 48 months, or some lowered company containing a tier-1 name. Compensation: a rate of at most 100 and an availability of at least 20. Location: the lowered location contains some qualified location. |
| Eligibility.MissingSalaryFails | main.py:313-316 | Without a salary section the availability is 0, so the candidate fails. |
| Eligibility.PassingReasons | main.py:306-324 | A passing candidate has three or four reasons, the location last. |
| Eligibility.SubstringLocations | main.py:321-322 | 'australia' and 'russia' qualify, because they contain 'us'. |
| Eligibility.YearsTextExamples | main.py:308-309 | 48 months print as '4.0'. 51 and 57 months round half to even: '4.2' and '4.8'. |
| Shortlist.FindApplicant | main.py:338 | The row found is the first whose 'Applicant ID' equals the id. It is None exactly when no row matches. |
| Shortlist.Decide | main.py:338-349 | A decision is reached only for the applicant's row with a non-empty stored JSON. It is the evaluation of that JSON. |
| Shortlist.ProcessShortlist | main.py:334-372 | On success, the row's status is 'Shortlisted' or 'Not Qualified' and a passing candidate gains one lead. A failure leaves the tables alone, or stops after the status update. With every call delivered and a stored JSON present, it succeeds. |
| Shortlist.LeadReasonQualified | main.py:356-364 | Every lead is created with a reason starting 'QUALIFIED: '. |
| Shortlist.UnparsableNotQualified | main.py:349-351 | Stored text that does not parse is marked 'Not Qualified' with 'Error in evaluation'. |
| Narrative.ParseLine | main.py:403-416 | The markers are tried in order, so a line is of the first kind it matches. Each field changes only on a line of its own kind. The follow-ups also change on a bullet line. |
| Narrative.ParseResponse | main.py:399-416 | The reply is stripped, split at newlines and read line by line into `ParseLines`. |
| Narrative.LastSummaryWins | main.py:405-406 | The summary comes from the last summary line. |
| Narrative.NoSummary | main.py:401 | Without a summary line, the summary stays empty. |
| Narrative.LastScoreWins | main.py:407-411 | The score comes from the last score line. |
| Narrative.NoScore | main.py:401 | Without a score line, the score stays 0. |
| Narrative.LastIssuesWins | main.py:411-412 | The issues come from the last issues line. |
| Narrative.NoIssues | main.py:401 | Without an issues line, the issues stay empty. |
| Narrative.LastFollowUpsWins | main.py:413-416 | The follow-ups are the value of the last follow-ups line, then each later bullet line, stripped, on a new line. A bullet line before that marker is lost. |
| Narrative.NoFollowUps | main.py:401-416 | Without a follow-ups line, the follow-ups are the bullet lines, each stripped on a new line. |
| Narrative.ScoreRoundTrip | main.py:407-409 | A score line 'Score: n' reads back as n. |
| Narrative.FractionalScore | main.py:408-411 | A score that is not an integer ('8/10') reads as 5. |
| Narrative.LlmEvaluation | main.py:374-433 | The request loop equals `RequestsFrom`. Text is parsed. An empty reply moves on without sleeping. An exception sleeps 2^k first, except on the last request, which gives the fallback. |
| Narrative.AllRequestsFail | main.py:421-433 | Three failures give the fallback after sleeping 1 then 2 seconds. |
| Narrative.AllRepliesEmpty | main.py:395-399 | Three empty replies give None without sleeping. |
| Narrative.FirstTextRead | main.py:395-419 | The first reply with text is the one parsed. |

## Left out

- HTTP method dispatch, URLs, headers and response decoding are not modelled. A call is an outcome: a body, a requests exception or another exception. The store records only the effect of GET, POST, PATCH and DELETE.
- The store's `List` returns a whole table in one call. Paging is modelled separately, in `Pagination.GetAllRecords`, and is not wired into the store.
- The transport script stands for the network. A listing, create or update outcome stands for the whole retried request.
- Transcoder.Decompress: after a failure inside the experience step, the partial experience table (some deletions or creations done) is described only as "only the experience table changed". The personal section written before it is stated exactly.
- Transcoder.ReplaceExperience: which DELETEs were refused is a ghost output. The source never checks the DELETE status.
- JSON text parsing and serialisation (`json.loads`, `json.dumps`) are left out. Decompress takes the parsed document, or None for malformed text. `process_shortlist` takes `parse` as a parameter.
- JSON floating-point numbers are left out, because numbers are integers only.
- Eligibility.CalculateExperienceMonths: returns whole months rather than `total_months / 12.0`. The test `years >= 4` is `months >= 48`. `YearsText` rounds the exact ratio half to even, which agrees with the double's formatting whenever the quotient is exactly representable.
- Eligibility.EntryMonths: `datetime.now()` is one `now` parameter for the whole loop. The source reads the clock once per entry.
- `lower`, `strip` and digit tests follow ASCII and the Latin-1 whitespace set. Unicode case folding, Unicode digits in `int()` and `strptime`, and its whitespace rules are left out.
- Log text and log levels are left out, except the retry wrapper's warnings and error.
- The Gemini prompt text is left out. The model replies through the `reply` oracle.
- `validate_config`, `setup_gemini`, `process_llm_evaluation`, `process_all_applicants`, the menu and the statistics are outside the modelled core. Configuration and setup scripts are not part of this model.
