/** The remote record store the system talks to, held in memory: named
    tables of records, the next id it will hand out, and the transport, a
    script of how each successive remote call goes (an empty script delivers
    every call). A list, create or update call stands for the whole retried
    request, so a failed transport outcome means the retries ran out. */
module Store {
  import opened Json
  import opened Records

  /** How one remote call goes: delivered; answered with an error status; or
      not answered (a connection error, a timeout). */
  datatype Transport = Delivered | HttpError | ConnectionFailed

  predicate DistinctIds(rs: seq<Record>) {
    forall i, j :: 0 <= i < j < |rs| ==> rs[i].id != rs[j].id
  }

  predicate IdsBelow(rs: seq<Record>, bound: nat) {
    forall i :: 0 <= i < |rs| ==> rs[i].id < bound
  }

  predicate HasId(rs: seq<Record>, id: RecordId) {
    exists i :: 0 <= i < |rs| && rs[i].id == id
  }

  /** The table after an update of record `id`: its fields are merged with
      `fields`, the new values winning, as a PATCH does. */
  function Patched(rs: seq<Record>, id: RecordId, fields: map<string, Value>): (r: seq<Record>)
    ensures |r| == |rs|
    ensures forall i :: 0 <= i < |rs| ==> r[i] == (if rs[i].id == id then Record(id, rs[i].fields + fields) else rs[i])
  {
    seq(|rs|, i requires 0 <= i < |rs| => if rs[i].id == id then Record(id, rs[i].fields + fields) else rs[i])
  }

  /** The table without the records whose ids are in `ids`, in order. */
  function Without(rs: seq<Record>, ids: set<RecordId>): (r: seq<Record>)
    ensures |r| <= |rs|
    ensures forall i :: 0 <= i < |r| ==> r[i] in rs && r[i].id !in ids
    ensures forall x :: x in rs && x.id !in ids ==> x in r
  {
    if rs == [] then []
    else
      var rest := Without(rs[..|rs| - 1], ids);
      var last := rs[|rs| - 1];
      assert forall x :: x in rs ==> x in rs[..|rs| - 1] || x == last;
      if last.id in ids then rest else rest + [last]
  }

  lemma {:induction false} WithoutUnion(rs: seq<Record>, a: set<RecordId>, b: set<RecordId>)
    ensures Without(Without(rs, a), b) == Without(rs, a + b)
  {
    if rs != [] {
      WithoutUnion(rs[..|rs| - 1], a, b);
      var w := Without(rs[..|rs| - 1], a);
      var last := rs[|rs| - 1];
      if last.id !in a {
        assert (w + [last])[..|w + [last]| - 1] == w;
      }
    }
  }

  /** Removing ids no record carries leaves the table as it was. */
  lemma {:induction false} WithoutNothing(rs: seq<Record>, ids: set<RecordId>)
    requires forall i :: 0 <= i < |rs| ==> rs[i].id !in ids
    ensures Without(rs, ids) == rs
  {
    if rs != [] {
      WithoutNothing(rs[..|rs| - 1], ids);
      assert rs[..|rs| - 1] + [rs[|rs| - 1]] == rs;
    }
  }

  lemma {:induction false} WithoutKeepsDistinct(rs: seq<Record>, ids: set<RecordId>, bound: nat)
    requires DistinctIds(rs) && IdsBelow(rs, bound)
    ensures DistinctIds(Without(rs, ids)) && IdsBelow(Without(rs, ids), bound)
  {
    if rs != [] {
      var init := rs[..|rs| - 1];
      WithoutKeepsDistinct(init, ids, bound);
      var w := Without(init, ids);
      var last := rs[|rs| - 1];
      forall i | 0 <= i < |w| ensures w[i].id != last.id {
        var j :| 0 <= j < |init| && init[j] == w[i];
      }
    }
  }

  class RemoteStore {
    var tables: map<string, seq<Record>>
    var nextId: nat
    var transport: seq<Transport>

    /** Record ids are distinct within a table and below the next id. */
    ghost predicate Valid()
      reads this
    {
      forall name :: name in tables ==> DistinctIds(tables[name]) && IdsBelow(tables[name], nextId)
    }

    constructor (tables: map<string, seq<Record>>, nextId: nat, transport: seq<Transport>)
      requires forall name :: name in tables ==> DistinctIds(tables[name]) && IdsBelow(tables[name], nextId)
      ensures Valid()
      ensures this.tables == tables && this.nextId == nextId && this.transport == transport
    {
      this.tables := tables;
      this.nextId := nextId;
      this.transport := transport;
    }

    /** Takes the outcome of the next remote call off the script. */
    method NextOutcome() returns (t: Transport)
      modifies this`transport
      ensures t == (if old(transport) == [] then Delivered else old(transport)[0])
      ensures transport == (if old(transport) == [] then [] else old(transport)[1..])
    {
      if transport == [] {
        t := Delivered;
      } else {
        t := transport[0];
        transport := transport[1..];
      }
    }

    /** `get_all_records(name)`: the whole table, or a failure (an unknown
        table answers 404). */
    method List(name: string) returns (r: Result<seq<Record>>)
      modifies this`transport
      ensures r.Ok? <==> name in tables && (old(transport) == [] || old(transport)[0] == Delivered)
      ensures r.Ok? ==> r.value == tables[name]
      ensures transport == (if old(transport) == [] then [] else old(transport)[1..])
    {
      var t := NextOutcome();
      if t == Delivered && name in tables {
        r := Ok(tables[name]);
      } else {
        r := Err(RemoteError);
      }
    }

    /** POST: appends a record with a fresh id. */
    method Create(name: string, fields: map<string, Value>) returns (ok: bool)
      requires Valid()
      modifies this
      ensures Valid() && tables.Keys == old(tables.Keys)
      ensures ok <==> name in tables && (old(transport) == [] || old(transport)[0] == Delivered)
      ensures ok ==> tables == old(tables)[name := old(tables[name]) + [Record(old(nextId), fields)]]
      ensures !ok ==> tables == old(tables)
      ensures nextId >= old(nextId)
      ensures transport == (if old(transport) == [] then [] else old(transport)[1..])
    {
      var t := NextOutcome();
      ok := t == Delivered && name in tables;
      if ok {
        var rs := tables[name] + [Record(nextId, fields)];
        assert DistinctIds(rs) && IdsBelow(rs, nextId + 1);
        tables := tables[name := rs];
        nextId := nextId + 1;
      }
    }

    /** PATCH: merges `fields` into the record with id `id`; an unknown
        table or record answers 404. */
    method Update(name: string, id: RecordId, fields: map<string, Value>) returns (ok: bool)
      requires Valid()
      modifies this`tables, this`transport
      ensures Valid() && tables.Keys == old(tables.Keys)
      ensures ok <==> name in old(tables) && HasId(old(tables[name]), id) && (old(transport) == [] || old(transport)[0] == Delivered)
      ensures ok ==> tables == old(tables)[name := Patched(old(tables[name]), id, fields)]
      ensures !ok ==> tables == old(tables)
      ensures transport == (if old(transport) == [] then [] else old(transport)[1..])
    {
      var t := NextOutcome();
      ok := t == Delivered && name in tables && HasId(tables[name], id);
      if ok {
        var rs := Patched(tables[name], id, fields);
        assert forall i :: 0 <= i < |rs| ==> rs[i].id == tables[name][i].id;
        tables := tables[name := rs];
      }
    }

    /** DELETE, as the system sends it: `raised` when the call is not
        answered; an error status is not checked, so the call is simply
        `refused` and nothing changes. */
    method Delete(name: string, id: RecordId) returns (raised: bool, refused: bool)
      requires Valid()
      modifies this`tables, this`transport
      ensures Valid() && tables.Keys == old(tables.Keys)
      ensures raised <==> old(transport) != [] && old(transport)[0] == ConnectionFailed
      ensures !raised && !refused ==> name in tables && tables == old(tables)[name := Without(old(tables[name]), {id})]
      ensures raised || refused ==> tables == old(tables)
      ensures refused <==> !raised && !((old(transport) == [] || old(transport)[0] == Delivered)
                                         && name in old(tables) && HasId(old(tables[name]), id))
      ensures transport == (if old(transport) == [] then [] else old(transport)[1..])
    {
      var t := NextOutcome();
      raised := t == ConnectionFailed;
      refused := !raised && !(t == Delivered && name in tables && HasId(tables[name], id));
      if !raised && !refused {
        WithoutKeepsDistinct(tables[name], {id}, nextId);
        tables := tables[name := Without(tables[name], {id})];
      }
    }
  }
}
