/** The object table, the caching decoder and the entry points of content.py. */
module ContentStore {
  import opened StrictJson
  import opened TypedNode
  import opened ContentEncoding
  import opened ContentDecoding

  class ObjectTable {
    var rows: Table

    constructor ()
      ensures rows == map[]
    {
      rows := map[];
    }
  }

  class ReadBudget {
    var remaining: nat

    constructor (bytes: nat)
      requires bytes > 0
      ensures remaining == bytes
    {
      remaining := bytes;
    }

    method Consume(bytes: nat) returns (ok: bool)
      modifies this
      ensures ok <==> bytes <= old(remaining)
      ensures remaining == if ok then old(remaining) - bytes else old(remaining)
    {
      ok := bytes <= remaining;
      if ok {
        remaining := remaining - bytes;
      }
    }
  }

  // ---------------------------------------------------------------- insertion

  /** No pending object meets a row of the table with other contents. */
  predicate Insertable(rows: Table, pending: Pending)
  {
    forall d :: d in pending && d in rows ==> rows[d] == Row(pending[d].0, pending[d].1)
  }

  function Inserted(rows: Table, pending: Pending): Table
  {
    rows + map d | d in pending :: Row(pending[d].0, pending[d].1)
  }

  /** Insert each object unless its digest is taken, then compare what the table holds. */
  method InsertObjects(table: ObjectTable, pending: Pending) returns (ok: bool)
    modifies table
    ensures ok <==> Insertable(old(table.rows), pending)
    ensures ok ==> table.rows == Inserted(old(table.rows), pending)
    ensures forall d :: d in old(table.rows) ==> d in table.rows && table.rows[d] == old(table.rows)[d]
  {
    var todo := pending.Keys;
    while todo != {}
      invariant todo <= pending.Keys
      invariant forall d :: d in old(table.rows) ==> d in table.rows && table.rows[d] == old(table.rows)[d]
      invariant forall d :: d in pending && d !in todo ==>
        d in table.rows && table.rows[d] == Row(pending[d].0, pending[d].1)
      invariant forall d :: d in table.rows ==> d in old(table.rows) || (d in pending && d !in todo)
      decreases |todo|
    {
      var d :| d in todo;
      if d !in table.rows {
        table.rows := table.rows[d := Row(pending[d].0, pending[d].1)];
      }
      if table.rows[d] != Row(pending[d].0, pending[d].1) {
        return false;
      }
      todo := todo - {d};
    }
    assert table.rows == Inserted(old(table.rows), pending);
    return true;
  }

  // ---------------------------------------------------------------- read cost

  function Bytes(table: Table, digest: string): nat
  {
    if digest in table then Utf8Size(table[digest].encoded) else 0
  }

  /** The stored bytes of a set of objects, each counted once. */
  ghost function Cost(table: Table, digests: set<string>): nat
  {
    if digests == {} then 0
    else var d :| d in digests; Bytes(table, d) + Cost(table, digests - {d})
  }

  lemma {:induction false} CostWithout(table: Table, digests: set<string>, d: string)
    requires d in digests
    ensures Cost(table, digests) == Bytes(table, d) + Cost(table, digests - {d})
    decreases digests
  {
    var e :| e in digests && Cost(table, digests) == Bytes(table, e) + Cost(table, digests - {e});
    if e != d {
      CostWithout(table, digests - {e}, d);
      CostWithout(table, digests - {d}, e);
      assert digests - {e} - {d} == digests - {d} - {e};
    }
  }

  lemma {:induction false} CostUnion(table: Table, a: set<string>, b: set<string>)
    requires a !! b
    ensures Cost(table, a + b) == Cost(table, a) + Cost(table, b)
    decreases a
  {
    if a == {} {
      assert a + b == b;
    } else {
      var d :| d in a;
      CostWithout(table, a, d);
      CostWithout(table, a + b, d);
      assert a + b - {d} == (a - {d}) + b;
      CostUnion(table, a - {d}, b);
    }
  }

  lemma CostMonotone(table: Table, part: set<string>, whole: set<string>)
    requires part <= whole
    ensures Cost(table, part) <= Cost(table, whole)
  {
    assert whole == part + (whole - part);
    CostUnion(table, part, whole - part);
  }

  // ---------------------------------------------------------------- cache

  /** Every check of a first load that does not depend on the depth of the reference. */
  predicate Genuine(r: Reader, digest: string, body: Json, size: nat)
  {
    && digest in r.table && r.table[digest].size == size
    && Parse(r, r.table[digest].encoded) == Some(body)
    && r.codec.digest(r.table[digest].encoded) == digest
    && NodeSize(body) == size
  }

  lemma FetchGenuine(r: Reader, digest: string, size: nat, depth: nat)
    ensures forall body ::
      Fetch(r, digest, size, depth) == Some(body) <==>
      Genuine(r, digest, body, size) && Measurable(body, depth, r.codec.maxDepth, r.codec.maximum)
  {
    hide Measurable, NodeSize, Canonical, Strict;
  }

  /** Using the cached body of a genuine object gives what a fresh load would give. */
  lemma CachedDecode(r: Reader, digest: string, body: Json, size: nat, depth: nat, active: set<string>)
    requires Genuine(r, digest, body, size)
    ensures Fetch(r, digest, size, depth) ==
      if Measurable(body, depth, r.codec.maxDepth, r.codec.maximum) then Some(body) else None
    ensures Fetch(r, digest, size, depth).None? ==> Decode(r, body, depth, active).None?
  {
    hide Measurable, NodeSize, Parse, Genuine;
    FetchGenuine(r, digest, size, depth);
    if Fetch(r, digest, size, depth).Some? {
      var other := Fetch(r, digest, size, depth).value;
      assert other == body by { GenuineUnique(r, digest, body, other, size); }
    }
  }

  lemma GenuineUnique(r: Reader, digest: string, a: Json, b: Json, size: nat)
    requires Genuine(r, digest, a, size) && Genuine(r, digest, b, size)
    ensures a == b
  {
  }
}
