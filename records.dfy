/** Raw records of the record store and the lookups the system runs over a
    fetched table: a record belongs to an applicant when the applicant's id is
    `in` its 'Applicant ID' field. */
module Records {
  import opened Json

  /** Record ids are opaque to the system; the store hands them out. */
  type RecordId = nat

  datatype Record = Record(id: RecordId, fields: map<string, Value>)

  const ApplicantIdField := "Applicant ID"

  /** `applicant_id in r.get('fields', {}).get('Applicant ID', [])`. Record
      ids and fields are always present in what the store returns. */
  function Linked(r: Record, applicant: string): Result<bool> {
    Contains(FieldOr(r.fields, ApplicantIdField, Arr([])), applicant)
  }

  /** The link test cannot raise on this record: its 'Applicant ID' field is
      absent, a list, a dict or a string. */
  predicate LinkReadable(r: Record) {
    var v := FieldOr(r.fields, ApplicantIdField, Arr([]));
    v.Arr? || v.Obj? || v.Str?
  }

  predicate AllLinkReadable(rs: seq<Record>) {
    forall i :: 0 <= i < |rs| ==> LinkReadable(rs[i])
  }

  predicate IsLinked(r: Record, applicant: string) {
    Linked(r, applicant) == Ok(true)
  }

  /** The fields the system writes on a record it creates or updates for an
      applicant link that record to that applicant alone. */
  lemma OwnLinkIsLinked(r: Record, applicant: string)
    requires ApplicantIdField in r.fields && r.fields[ApplicantIdField] == Arr([Str(applicant)])
    ensures LinkReadable(r) && IsLinked(r, applicant)
  {
    assert Str(applicant) in [Str(applicant)];
  }

  /** `next((r for r in rs if <linked>), None)`: scans in order and stops at
      the first linked record; a link test that raises aborts the scan. */
  function FirstLinked(rs: seq<Record>, applicant: string): (r: Result<Option<Record>>)
    ensures r.Ok? && r.value.Some? ==> r.value.value in rs && IsLinked(r.value.value, applicant)
  {
    if rs == [] then Ok(None)
    else match Linked(rs[0], applicant)
      case Err(e) => Err(e)
      case Ok(true) => Ok(Some(rs[0]))
      case Ok(false) => FirstLinked(rs[1..], applicant)
  }

  /** `[r for r in rs if <linked>]`: every record is tested. */
  function AllLinked(rs: seq<Record>, applicant: string): Result<seq<Record>> {
    if rs == [] then Ok([])
    else match Linked(rs[0], applicant)
      case Err(e) => Err(e)
      case Ok(b) =>
        match AllLinked(rs[1..], applicant)
        case Err(e) => Err(e)
        case Ok(tail) => Ok(if b then [rs[0]] + tail else tail)
  }

  /** What AllLinked keeps is linked, and comes from the table. */
  lemma {:induction false} AllLinkedKeeps(rs: seq<Record>, applicant: string)
    ensures AllLinked(rs, applicant).Ok? ==>
      forall k :: 0 <= k < |AllLinked(rs, applicant).value| ==>
        AllLinked(rs, applicant).value[k] in rs && IsLinked(AllLinked(rs, applicant).value[k], applicant)
  {
    if rs != [] {
      AllLinkedKeeps(rs[1..], applicant);
      assert forall x :: x in rs[1..] ==> x in rs;
    }
  }

  /** FirstLinked finds the record at the least linked position, or reports
      that no record is linked; it raises only when the test raises on a
      record at or before that position. */
  lemma {:induction false} FirstLinkedSpec(rs: seq<Record>, applicant: string)
    requires AllLinkReadable(rs)
    ensures FirstLinked(rs, applicant).Ok?
    ensures FirstLinked(rs, applicant).value.None? <==> forall i :: 0 <= i < |rs| ==> !IsLinked(rs[i], applicant)
    ensures FirstLinked(rs, applicant).value.Some? ==>
      exists i :: 0 <= i < |rs| && rs[i] == FirstLinked(rs, applicant).value.value && IsLinked(rs[i], applicant)
        && forall j :: 0 <= j < i ==> !IsLinked(rs[j], applicant)
  {
    if rs != [] {
      FirstLinkedSpec(rs[1..], applicant);
      var f := FirstLinked(rs[1..], applicant);
      if !IsLinked(rs[0], applicant) {
        forall i | 0 <= i < |rs[1..]| ensures rs[1..][i] == rs[i + 1] { }
        if f.value.Some? {
          var i :| 0 <= i < |rs[1..]| && rs[1..][i] == f.value.value && IsLinked(rs[1..][i], applicant)
            && forall j :: 0 <= j < i ==> !IsLinked(rs[1..][j], applicant);
          assert rs[i + 1] == f.value.value;
          assert forall j :: 0 <= j < i + 1 ==> !IsLinked(rs[j], applicant) by {
            forall j | 0 <= j < i + 1 ensures !IsLinked(rs[j], applicant) {
              if j > 0 { assert rs[j] == rs[1..][j - 1]; }
            }
          }
        } else {
          forall i | 0 <= i < |rs| ensures !IsLinked(rs[i], applicant) {
            if i > 0 { assert rs[i] == rs[1..][i - 1]; }
          }
        }
      }
    }
  }

  /** FirstLinked at a known position: the record at the least linked position
      i is found, whatever follows it. */
  lemma {:induction false} FirstLinkedAt(rs: seq<Record>, applicant: string, i: nat)
    requires i < |rs| && AllLinkReadable(rs[..i])
    requires IsLinked(rs[i], applicant)
    requires forall j :: 0 <= j < i ==> !IsLinked(rs[j], applicant)
    ensures FirstLinked(rs, applicant) == Ok(Some(rs[i]))
  {
    if i > 0 {
      assert LinkReadable(rs[..i][0]);
      assert !IsLinked(rs[0], applicant);
      assert rs[1..][..i - 1] == rs[..i][1..];
      FirstLinkedAt(rs[1..], applicant, i - 1);
    }
  }

  /** FirstLinked on a table with no linked record. */
  lemma {:induction false} FirstLinkedNone(rs: seq<Record>, applicant: string)
    requires AllLinkReadable(rs)
    requires forall j :: 0 <= j < |rs| ==> !IsLinked(rs[j], applicant)
    ensures FirstLinked(rs, applicant) == Ok(None)
  {
    if rs != [] {
      assert !IsLinked(rs[0], applicant);
      assert LinkReadable(rs[0]);
      FirstLinkedNone(rs[1..], applicant);
    }
  }

  /** AllLinked keeps exactly the linked records, in table order: it is the
      table's sub-sequence picked out by strictly increasing positions that
      are precisely the linked ones. */
  lemma {:induction false} AllLinkedSpec(rs: seq<Record>, applicant: string)
    requires AllLinkReadable(rs)
    ensures AllLinked(rs, applicant).Ok?
    ensures var kept := AllLinked(rs, applicant).value;
      exists pos: seq<nat> :: Picks(rs, applicant, kept, pos)
  {
    if rs == [] {
      var pos: seq<nat> := [];
      assert Picks(rs, applicant, [], pos);
    } else {
      assert LinkReadable(rs[0]);
      assert AllLinkReadable(rs[1..]) by {
        forall i | 0 <= i < |rs[1..]| ensures LinkReadable(rs[1..][i]) { assert rs[1..][i] == rs[i + 1]; }
      }
      AllLinkedSpec(rs[1..], applicant);
      var tail := AllLinked(rs[1..], applicant).value;
      var pos' :| Picks(rs[1..], applicant, tail, pos');
      var pos := PicksCons(rs, applicant, tail, pos');
      assert Picks(rs, applicant, AllLinked(rs, applicant).value, pos);
    }
  }

  /** The strictly increasing positions `pos` pick `kept` out of `rs`, and
      they are exactly the positions of linked records. */
  ghost predicate Picks(rs: seq<Record>, applicant: string, kept: seq<Record>, pos: seq<nat>) {
    && |pos| == |kept|
    && PickedAt(rs, kept, pos)
    && Increasing(pos)
    && LinkedExactlyAt(rs, applicant, pos)
  }

  ghost predicate PickedAt(rs: seq<Record>, kept: seq<Record>, pos: seq<nat>)
    requires |pos| == |kept|
  {
    forall k :: 0 <= k < |pos| ==> pos[k] < |rs| && rs[pos[k]] == kept[k]
  }

  ghost predicate Increasing(pos: seq<nat>) {
    forall k, l :: 0 <= k < l < |pos| ==> pos[k] < pos[l]
  }

  ghost predicate LinkedExactlyAt(rs: seq<Record>, applicant: string, pos: seq<nat>) {
    forall i :: 0 <= i < |rs| ==> (IsLinked(rs[i], applicant) <==> i in pos)
  }

  /** The positions of `pos'` in `rs[1..]`, as positions in `rs`, after 0
      when `first` holds. */
  function Shift(pos': seq<nat>, first: bool): (pos: seq<nat>)
    ensures |pos| == |pos'| + (if first then 1 else 0)
    ensures first ==> pos[0] == 0
    ensures forall k :: (if first then 1 else 0) <= k < |pos| ==> pos[k] == pos'[k - (if first then 1 else 0)] + 1
  {
    var shifted := seq(|pos'|, k requires 0 <= k < |pos'| => pos'[k] + 1);
    if first then [0] + shifted else shifted
  }

  lemma PicksCons(rs: seq<Record>, applicant: string, tail: seq<Record>, pos': seq<nat>) returns (pos: seq<nat>)
    requires rs != [] && Picks(rs[1..], applicant, tail, pos')
    ensures Picks(rs, applicant, if IsLinked(rs[0], applicant) then [rs[0]] + tail else tail, pos)
  {
    var linked := IsLinked(rs[0], applicant);
    var kept := if linked then [rs[0]] + tail else tail;
    pos := Shift(pos', linked);
    ShiftPicks(rs, tail, pos', linked);
    ShiftIncreasing(pos', linked);
    ShiftLinked(rs, applicant, pos');
  }

  lemma ShiftPicks(rs: seq<Record>, tail: seq<Record>, pos': seq<nat>, first: bool)
    requires rs != [] && |pos'| == |tail| && PickedAt(rs[1..], tail, pos')
    ensures PickedAt(rs, if first then [rs[0]] + tail else tail, Shift(pos', first))
  {
    var pos, d := Shift(pos', first), if first then 1 else 0;
    var kept := if first then [rs[0]] + tail else tail;
    forall k | 0 <= k < |pos| ensures pos[k] < |rs| && rs[pos[k]] == kept[k] {
      if k >= d {
        assert rs[pos'[k - d] + 1] == rs[1..][pos'[k - d]];
      }
    }
  }

  lemma ShiftIncreasing(pos': seq<nat>, first: bool)
    requires Increasing(pos')
    ensures Increasing(Shift(pos', first))
  {
    var pos, d := Shift(pos', first), if first then 1 else 0;
    forall k, l | 0 <= k < l < |pos| ensures pos[k] < pos[l] {
      if k >= d {
        assert pos'[k - d] < pos'[l - d];
      }
    }
  }

  lemma ShiftLinked(rs: seq<Record>, applicant: string, pos': seq<nat>)
    requires rs != [] && LinkedExactlyAt(rs[1..], applicant, pos')
    ensures LinkedExactlyAt(rs, applicant, Shift(pos', IsLinked(rs[0], applicant)))
  {
    var first := IsLinked(rs[0], applicant);
    var pos, d := Shift(pos', first), if first then 1 else 0;
    forall i | 0 <= i < |rs| ensures IsLinked(rs[i], applicant) <==> i in pos {
      if i > 0 {
        assert rs[i] == rs[1..][i - 1];
        if i - 1 in pos' {
          var k :| 0 <= k < |pos'| && pos'[k] == i - 1;
          assert pos[k + d] == i;
        }
        if i in pos {
          var k :| 0 <= k < |pos| && pos[k] == i;
          assert pos'[k - d] == i - 1;
        }
      } else if 0 in pos {
        var k :| 0 <= k < |pos| && pos[k] == 0;
        assert k < d;
      }
    }
  }

  /** On a table with no linked record, AllLinked finds nothing; a table made
      of records linked to the applicant is kept whole. */
  lemma {:induction false} AllLinkedOfNone(rs: seq<Record>, applicant: string)
    requires AllLinkReadable(rs)
    requires forall j :: 0 <= j < |rs| ==> !IsLinked(rs[j], applicant)
    ensures AllLinked(rs, applicant) == Ok([])
  {
    if rs != [] {
      assert LinkReadable(rs[0]) && !IsLinked(rs[0], applicant);
      AllLinkedOfNone(rs[1..], applicant);
    }
  }

  lemma {:induction false} AllLinkedOfAll(rs: seq<Record>, applicant: string)
    requires forall j :: 0 <= j < |rs| ==> IsLinked(rs[j], applicant)
    ensures AllLinked(rs, applicant) == Ok(rs)
  {
    if rs != [] {
      assert IsLinked(rs[0], applicant);
      AllLinkedOfAll(rs[1..], applicant);
      assert rs == [rs[0]] + rs[1..];
    }
  }

  lemma {:induction false} AllLinkedAppend(a: seq<Record>, b: seq<Record>, applicant: string)
    requires AllLinked(a, applicant).Ok? && AllLinked(b, applicant).Ok?
    ensures AllLinked(a + b, applicant) == Ok(AllLinked(a, applicant).value + AllLinked(b, applicant).value)
  {
    if a != [] {
      assert (a + b)[0] == a[0];
      assert (a + b)[1..] == a[1..] + b;
      assert Linked(a[0], applicant).Ok?;
      AllLinkedAppend(a[1..], b, applicant);
      var x, y := AllLinked(a[1..], applicant).value, AllLinked(b, applicant).value;
      assert [a[0]] + (x + y) == ([a[0]] + x) + y;
    } else {
      assert a + b == b;
      assert AllLinked(a, applicant).value == [];
      assert [] + AllLinked(b, applicant).value == AllLinked(b, applicant).value;
    }
  }
}
