/** `MercorAirtableSystem.get_all_records`: list a table page by page,
    following the continuation token. The i-th list request gets
    `replies[i]`, the outcome of the retried call for that page. */
module Pagination {
  import opened Json
  import opened Records
  import Retry

  /** One list response: `records` may be missing; `offset` is the
      continuation token. */
  datatype Page = Page(records: Option<seq<Record>>, offset: Option<string>)

  type Reply = Retry.CallResult<Page>

  /** `response.get('records', [])`. */
  function RecordsOf(p: Page): seq<Record> {
    match p.records
    case None => []
    case Some(rs) => rs
  }

  /** The token is truthy: the loop asks for another page. */
  predicate HasMore(p: Page) {
    p.offset.Some? && p.offset.value != ""
  }

  /** The loop ends at this reply: the call raised, returned None, or the
      page carries no truthy token. */
  predicate Stops(r: Reply) {
    !r.Returned? || !HasMore(r.value)
  }

  /** The records of the pages, concatenated in fetch order. */
  function Concat(replies: seq<Reply>): seq<Record>
    requires forall j :: 0 <= j < |replies| ==> replies[j].Returned?
  {
    if replies == [] then [] else Concat(replies[..|replies| - 1]) + RecordsOf(replies[|replies| - 1].value)
  }

  /** The position of the first reply at which the loop stops. */
  function FirstStop(replies: seq<Reply>, from: nat): (k: nat)
    requires exists k :: from <= k < |replies| && Stops(replies[k])
    ensures from <= k < |replies| && Stops(replies[k])
    ensures forall j :: from <= j < k ==> !Stops(replies[j])
    decreases |replies| - from
  {
    if Stops(replies[from]) then from else FirstStop(replies, from + 1)
  }

  /** The loop: the result is the concatenation of the pages up to and
      including the first page without a truthy token; the first request
      carries no offset and each later one the token of the page before;
      a failed page call aborts the whole fetch. */
  method GetAllRecords(replies: seq<Reply>) returns (r: Result<seq<Record>>, requested: seq<Option<string>>)
    requires exists k :: 0 <= k < |replies| && Stops(replies[k])
    ensures var k := FirstStop(replies, 0);
      && |requested| == k + 1
      && requested[0] == None
      && (forall j :: 1 <= j <= k ==> requested[j] == replies[j - 1].value.offset)
      && (replies[k].Returned? <==> r.Ok?)
      && (r.Ok? ==> r.value == Concat(replies[..k + 1]))
  {
    var all: seq<Record> := [];
    var offset: Option<string> := None;
    var i := 0;
    requested := [];
    ghost var k := FirstStop(replies, 0);
    while true
      invariant i <= k
      invariant forall j :: 0 <= j < i ==> !Stops(replies[j])
      invariant all == Concat(replies[..i])
      invariant |requested| == i
      invariant i == 0 ==> offset == None
      invariant i > 0 ==> offset == replies[i - 1].value.offset && HasMore(replies[i - 1].value)
      invariant forall j :: 0 <= j < i ==> requested[j] == (if j == 0 then None else replies[j - 1].value.offset)
      decreases k - i
    {
      // the endpoint carries `?offset=` only when the token is truthy
      requested := requested + [if offset.Some? && offset.value != "" then offset else None];
      match replies[i] {
        case Raised(_) =>
          return Err(RemoteError), requested;
        case NoneReturned =>
          return Err(AttributeError), requested;
        case Returned(page) =>
          assert replies[..i + 1][..i] == replies[..i];
          all := all + RecordsOf(page);
          offset := page.offset;
          if !HasMore(page) {
            return Ok(all), requested;
          }
      }
      i := i + 1;
    }
  }

  /** Concatenating pages distributes over a split of the replies. */
  lemma {:induction false} ConcatAppend(a: seq<Reply>, b: seq<Reply>)
    requires forall j :: 0 <= j < |a| ==> a[j].Returned?
    requires forall j :: 0 <= j < |b| ==> b[j].Returned?
    ensures Concat(a + b) == Concat(a) + Concat(b)
    decreases |b|
  {
    if b == [] {
      assert a + b == a;
    } else {
      var b' := b[..|b| - 1];
      assert (a + b)[..|a + b| - 1] == a + b';
      ConcatAppend(a, b');
    }
  }
}
