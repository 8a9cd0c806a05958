/** Paging through stall notifications as application.py does it: one cursor into each of three
    stores, a page bounded by count, bytes and time, and a notification listed by the first store
    that knows it. */
module StallNotifications {
  import opened StrictJson

  // ---------------------------------------------------------------- the stores

  const PHASES := 3

  /** A row of a store in row order; only in the inbox may it come from another source. */
  datatype Candidate = Candidate(cursor: nat, id: string, ours: bool)

  datatype Stage = Stage(state: string, revision: nat)

  /** Three stores that do not change: their rows, and what each of them knows of a stalled
      notification. */
  datatype Stores = Stores(rows: seq<seq<Candidate>>, stages: seq<map<string, Stage>>)

  predicate Ascending(rows: seq<Candidate>)
  {
    && (forall i :: 0 <= i < |rows| ==> rows[i].cursor >= 1)
    && (forall i, j :: 0 <= i < j < |rows| ==> rows[i].cursor < rows[j].cursor)
  }

  /** Row numbers rise, identities are unique, and a stage is that of a row. */
  predicate WellStored(w: Stores)
  {
    && |w.rows| == PHASES && |w.stages| == PHASES
    && (forall k :: 0 <= k < PHASES ==> Ascending(w.rows[k]))
    && (forall k, i, j :: 0 <= k < PHASES && 0 <= i < j < |w.rows[k]| && w.rows[k][i].ours && w.rows[k][j].ours ==>
          w.rows[k][i].id != w.rows[k][j].id)
    && (forall k, id :: 0 <= k < PHASES && id in w.stages[k] ==>
          exists i :: 0 <= i < |w.rows[k]| && w.rows[k][i].ours && w.rows[k][i].id == id)
  }

  // ---------------------------------------------------------------- one notification

  /** The latest durable stage, with all stages on the way. */
  datatype Record = Record(id: string, phase: nat, state: string, stages: map<nat, Stage>)

  predicate Known(w: Stores, id: string)
    requires |w.stages| == PHASES
  {
    exists k :: 0 <= k < PHASES && id in w.stages[k]
  }

  /** The first store that knows a notification lists it. */
  predicate Owns(w: Stores, k: nat, id: string)
    requires |w.stages| == PHASES && k < PHASES
  {
    id in w.stages[k] && forall j :: 0 <= j < k ==> id !in w.stages[j]
  }

  /** The last store that knows it says how it stands. */
  predicate IsLatest(w: Stores, k: nat, id: string)
    requires |w.stages| == PHASES && k < PHASES
  {
    id in w.stages[k] && forall j :: k < j < PHASES ==> id !in w.stages[j]
  }

  ghost predicate Describes(w: Stores, r: Record)
    requires |w.stages| == PHASES
  {
    && r.phase < PHASES && IsLatest(w, r.phase, r.id) && r.state == w.stages[r.phase][r.id].state
    && (forall k :: k in r.stages <==> 0 <= k < PHASES && r.id in w.stages[k])
    && (forall k :: k in r.stages ==> r.stages[k] == w.stages[k][r.id])
  }

  method Resolve(w: Stores, id: string) returns (owner: nat, record: Option<Record>)
    requires |w.stages| == PHASES
    ensures record.Some? <==> Known(w, id)
    ensures record.Some? ==>
      owner < PHASES && Owns(w, owner, id) && record.value.id == id && Describes(w, record.value)
  {
    owner, record := PHASES, None;
    var stages: map<nat, Stage> := map[];
    var k := 0;
    while k < PHASES
      invariant 0 <= k <= PHASES
      invariant forall j :: j in stages <==> 0 <= j < k && id in w.stages[j]
      invariant forall j :: j in stages ==> stages[j] == w.stages[j][id]
      invariant record.None? ==> owner == PHASES && forall j :: 0 <= j < k ==> id !in w.stages[j]
      invariant record.Some? ==>
        && owner < k && Owns(w, owner, id)
        && var r := record.value;
           && r.id == id && r.phase < k && id in w.stages[r.phase] && r.state == w.stages[r.phase][id].state
           && r.stages == stages && forall j :: r.phase < j < k ==> id !in w.stages[j]
    {
      if id in w.stages[k] {
        if owner == PHASES { owner := k; }
        stages := stages[k := w.stages[k][id]];
        record := Some(Record(id, k, w.stages[k][id].state, stages));
      }
      k := k + 1;
    }
  }

  predicate Matches(w: Stores, id: string, filter: Option<string>)
    requires |w.stages| == PHASES
  {
    exists k :: 0 <= k < PHASES && IsLatest(w, k, id) && (filter.None? || w.stages[k][id].state == filter.value)
  }

  /** The store lists the row under the filter. */
  predicate Lists(w: Stores, k: nat, c: Candidate, filter: Option<string>)
    requires |w.stages| == PHASES && k < PHASES
  {
    c.ours && Owns(w, k, c.id) && Matches(w, c.id, filter)
  }

  // ---------------------------------------------------------------- what is still to come

  /** The rows after a position. */
  function From(rows: seq<Candidate>, position: nat): (rest: seq<Candidate>)
    ensures |rest| <= |rows|
  {
    if rows == [] then [] else if rows[0].cursor <= position then From(rows[1..], position) else rows
  }

  function Listing(w: Stores, k: nat, rows: seq<Candidate>, filter: Option<string>): seq<string>
    requires |w.stages| == PHASES && k < PHASES
    decreases |rows|
  {
    if rows == [] then []
    else
      Listing(w, k, rows[..|rows| - 1], filter)
      + if Lists(w, k, rows[|rows| - 1], filter) then [rows[|rows| - 1].id] else []
  }

  function ToCome(w: Stores, k: nat, position: nat, filter: Option<string>): seq<string>
    requires |w.stages| == PHASES && |w.rows| == PHASES && k < PHASES
  {
    Listing(w, k, From(w.rows[k], position), filter)
  }

  function Remaining(w: Stores, p: seq<nat>, filter: Option<string>): multiset<string>
    requires |w.stages| == PHASES && |w.rows| == PHASES && |p| == PHASES
  {
    multiset(ToCome(w, 0, p[0], filter)) + multiset(ToCome(w, 1, p[1], filter)) + multiset(ToCome(w, 2, p[2], filter))
  }

  /** How many rows are still to be looked at. */
  function Left(w: Stores, p: seq<nat>): nat
    requires |w.rows| == PHASES && |p| == PHASES
  {
    |From(w.rows[0], p[0])| + |From(w.rows[1], p[1])| + |From(w.rows[2], p[2])|
  }

  lemma {:induction false} FromAll(rows: seq<Candidate>)
    requires Ascending(rows)
    ensures From(rows, 0) == rows
  {
  }

  /** Moving the cursor to a row leaves what comes after it. */
  lemma {:induction false} FromRow(rows: seq<Candidate>, position: nat, i: nat)
    requires Ascending(rows) && i < |From(rows, position)|
    ensures From(rows, From(rows, position)[i].cursor) == From(rows, position)[i + 1..]
    ensures Ascending(From(rows, position))
    decreases |rows|
  {
    if rows[0].cursor <= position {
      FromRow(rows[1..], position, i);
      assert From(rows[1..], position)[i] in rows[1..] by { FromIsPart(rows[1..], position, i); }
    } else {
      DropTo(rows, i);
    }
  }

  lemma {:induction false} FromIsPart(rows: seq<Candidate>, position: nat, i: nat)
    requires i < |From(rows, position)|
    ensures From(rows, position)[i] in rows
    decreases |rows|
  {
    if rows[0].cursor <= position {
      FromIsPart(rows[1..], position, i);
    }
  }

  lemma {:induction false} DropTo(rows: seq<Candidate>, i: nat)
    requires Ascending(rows) && i < |rows|
    ensures From(rows, rows[i].cursor) == rows[i + 1..]
    decreases |rows|
  {
    if i > 0 {
      DropTo(rows[1..], i - 1);
      assert rows[1..][i - 1] == rows[i];
      assert rows[1..][i..] == rows[i + 1..];
    } else if |rows| > 1 {
      assert rows[1..][0].cursor > rows[0].cursor;
    }
  }

  lemma {:induction false} ListingSplit(w: Stores, k: nat, a: seq<Candidate>, b: seq<Candidate>, filter: Option<string>)
    requires |w.stages| == PHASES && k < PHASES
    ensures Listing(w, k, a + b, filter) == Listing(w, k, a, filter) + Listing(w, k, b, filter)
    decreases |b|
  {
    hide Lists;
    if b == [] {
      assert a + b == a;
    } else {
      assert (a + b)[..|a + b| - 1] == a + b[..|b| - 1];
      ListingSplit(w, k, a, b[..|b| - 1], filter);
    }
  }

  // ---------------------------------------------------------------- one page

  /** A listed notification, cut down to its identity if it alone would not fit. */
  datatype Listed = Listed(record: Record, cut: bool)

  datatype Report = Report(
    notifications: seq<Listed>, positions: seq<nat>, hasMore: bool, complete: bool, timedOut: bool)

  function IdsOf(page: seq<Listed>): seq<string> { seq(|page|, i requires 0 <= i < |page| => page[i].record.id) }

  /** What bounds a page: how many, how many bytes, and the size of a record whole and cut. */
  datatype Limits = Limits(count: nat, bytes: nat, size: Record -> nat, cutSize: Record -> nat)

  function SizeOf(l: Limits, x: Listed): nat { if x.cut then l.cutSize(x.record) else l.size(x.record) }

  const OVERHEAD := 384

  function Used(l: Limits, page: seq<Listed>): nat
    decreases |page|
  {
    if page == [] then OVERHEAD else Used(l, page[..|page| - 1]) + SizeOf(l, page[|page| - 1]) + 1
  }

  /** A page fits, unless one cut notification alone does not. */
  ghost predicate Fits(l: Limits, page: seq<Listed>)
  {
    && |page| <= l.count
    && (forall i :: 0 < i < |page| ==> !page[i].cut)
    && (page == [] || Used(l, page) <= l.bytes + 1 || (|page| == 1 && page[0].cut))
  }

  /** How the reading of one store ended. */
  datatype End = Exhausted | Full | TimedOut

  ghost predicate Sound(w: Stores, page: seq<Listed>, filter: Option<string>)
    requires |w.stages| == PHASES
  {
    forall i :: 0 <= i < |page| ==>
      Describes(w, page[i].record) && (filter.None? || page[i].record.state == filter.value)
  }

  /** What reading one store from a position adds to a page. */
  ghost predicate Advanced(
    w: Stores, k: nat, filter: Option<string>, l: Limits, page: seq<Listed>, start: nat,
    longer: seq<Listed>, position: nat)
    requires |w.stages| == PHASES && |w.rows| == PHASES && k < PHASES
  {
    && page <= longer && Fits(l, longer) && Sound(w, longer, filter)
    && ToCome(w, k, start, filter) == IdsOf(longer[|page|..]) + ToCome(w, k, position, filter)
    && |From(w.rows[k], position)| <= |From(w.rows[k], start)|
    && (|longer| > |page| ==> |From(w.rows[k], position)| < |From(w.rows[k], start)|)
  }

  /** The outcome of one candidate that is not cut off by time or a full page. */
  method Offer(w: Stores, k: nat, filter: Option<string>, l: Limits, page: seq<Listed>, used: nat, c: Candidate)
    returns (longer: seq<Listed>, more: nat, full: bool, complete: bool)
    requires |w.stages| == PHASES && k < PHASES
    requires Fits(l, page) && Sound(w, page, filter) && used == Used(l, page) && |page| < l.count
    ensures full ==> longer == page && page != [] && more == used
    ensures !full && !Lists(w, k, c, filter) ==> longer == page
    ensures !full && Lists(w, k, c, filter) ==>
      |longer| == |page| + 1 && longer[..|page|] == page && longer[|page|].record.id == c.id
    ensures Fits(l, longer) && Sound(w, longer, filter) && more == Used(l, longer)
  {
    hide Fits, Sound, Used;
    longer, more, full, complete := page, used, false, true;
    if !c.ours {
      return;
    }
    var owner, found := Resolve(w, c.id);
    ListsBy(w, k, c, filter, owner, found);
    if found.None? || owner != k || (filter.Some? && found.value.state != filter.value) {
      return;
    }
    hide Lists, Describes, Owns;
    var record := found.value;
    var x := Listed(record, false);
    if used + l.size(record) > l.bytes {
      complete := false;
      if page != [] {
        full := true;
        return;
      }
      x := Listed(record, true);
    }
    PageGrows(w, filter, l, page, x);
    longer := page + [x];
    more := used + SizeOf(l, x) + 1;
  }

  /** A record that fits, or the first one cut down, keeps the page in order. */
  lemma PageGrows(w: Stores, filter: Option<string>, l: Limits, page: seq<Listed>, x: Listed)
    requires |w.stages| == PHASES && Fits(l, page) && Sound(w, page, filter) && |page| < l.count
    requires Describes(w, x.record) && (filter.None? || x.record.state == filter.value)
    requires if x.cut then page == [] else Used(l, page) + l.size(x.record) <= l.bytes
    ensures Fits(l, page + [x]) && Sound(w, page + [x], filter)
    ensures Used(l, page + [x]) == Used(l, page) + SizeOf(l, x) + 1 && (page + [x])[..|page|] == page
  {
    hide Describes;
    assert (page + [x])[..|page + [x]| - 1] == page;
  }

  lemma ListsBy(w: Stores, k: nat, c: Candidate, filter: Option<string>, owner: nat, found: Option<Record>)
    requires |w.stages| == PHASES && k < PHASES && c.ours && (found.Some? <==> Known(w, c.id))
    requires found.Some? ==> owner < PHASES && Owns(w, owner, c.id) && found.value.id == c.id && Describes(w, found.value)
    ensures Lists(w, k, c, filter) <==>
      found.Some? && owner == k && (filter.None? || found.value.state == filter.value)
  {
    if found.Some? {
      var r := found.value;
      if filter.None? || r.state == filter.value {
        assert IsLatest(w, r.phase, c.id);
      }
    }
  }

  function Spend(time: Option<nat>): Option<nat>
  {
    match time
    case Some(n) => if n == 0 then Some(0) else Some(n - 1)
    case None => None
  }

  lemma WellSized(w: Stores)
    requires WellStored(w)
    ensures |w.rows| == PHASES && |w.stages| == PHASES
  {
  }

  /** The rows of one store after a position are looked at in order, at most a page of them; the
      position moves past a row only when it has been listed or passed over. */
  method ReadStore(
    w: Stores, k: nat, filter: Option<string>, l: Limits, page: seq<Listed>, used: nat, start: nat, time: Option<nat>)
    returns (longer: seq<Listed>, now: nat, position: nat, end: End, more: bool, complete: bool, left: Option<nat>)
    requires WellStored(w) && k < PHASES && l.count >= 1
    requires Fits(l, page) && Sound(w, page, filter) && used == Used(l, page)
    ensures Advanced(w, k, filter, l, page, start, longer, position) && now == Used(l, longer)
    ensures end.Full? ==> longer != []
    ensures end.TimedOut? || left.Some? ==> time.Some?
    ensures end.Exhausted? && !more ==> From(w.rows[k], position) == []
    ensures end.Exhausted? && more ==> |From(w.rows[k], position)| < |From(w.rows[k], start)|
  {
    hide WellStored, Lists, Sound, Fits, Used, Upto, Listing, IdsOf, Advanced, From;
    WellSized(w);
    longer, now, position, end, more, complete, left := page, used, start, Exhausted, false, true, Spend(time);
    UptoStart(w, k, filter, l, page, start);
    UptoRead(w, k, filter, l, page, start, page, start, 0);
    if time == Some(0) {
      end := TimedOut;
      return;
    }
    var rows := From(w.rows[k], start);
    more := |rows| > l.count;
    var window := if more then l.count else |rows|;
    var i := 0;
    while i < window
      invariant 0 <= i <= window && Upto(w, k, filter, l, page, start, longer, position, i) && now == Used(l, longer)
      invariant left.Some? ==> time.Some?
    {
      UptoRead(w, k, filter, l, page, start, longer, position, i);
      if left == Some(0) {
        end := TimedOut;
        return;
      }
      if |longer| >= l.count {
        end := Full;
        return;
      }
      var next, sum, full, whole := Offer(w, k, filter, l, longer, now, rows[i]);
      if full {
        end, complete := Full, false;
        return;
      }
      UptoStep(w, k, filter, l, page, start, longer, position, next, i);
      longer, now, complete := next, sum, complete && whole;
      position := rows[i].cursor;
      left := Spend(left);
      i := i + 1;
    }
    UptoRead(w, k, filter, l, page, start, longer, position, i);
  }

  /** After `i` rows of a store: what they added to the page, and what is still to come. */
  ghost predicate Upto(
    w: Stores, k: nat, filter: Option<string>, l: Limits, page: seq<Listed>, start: nat,
    longer: seq<Listed>, position: nat, i: nat)
    requires |w.stages| == PHASES && |w.rows| == PHASES && k < PHASES
  {
    var rows := From(w.rows[k], start);
    && i <= |rows| && From(w.rows[k], position) == rows[i..]
    && page <= longer && Fits(l, longer) && Sound(w, longer, filter)
    && IdsOf(longer[|page|..]) == Listing(w, k, rows[..i], filter)
  }

  lemma UptoStart(w: Stores, k: nat, filter: Option<string>, l: Limits, page: seq<Listed>, start: nat)
    requires |w.stages| == PHASES && |w.rows| == PHASES && k < PHASES && Fits(l, page) && Sound(w, page, filter)
    ensures Upto(w, k, filter, l, page, start, page, start, 0)
  {
    hide Fits, Sound, From;
    assert page[|page|..] == [];
    assert IdsOf([]) == [];
  }

  lemma UptoStep(
    w: Stores, k: nat, filter: Option<string>, l: Limits, page: seq<Listed>, start: nat,
    longer: seq<Listed>, position: nat, next: seq<Listed>, i: nat)
    requires WellStored(w) && k < PHASES && Upto(w, k, filter, l, page, start, longer, position, i)
    requires i < |From(w.rows[k], start)| && Fits(l, next) && Sound(w, next, filter)
    requires var c := From(w.rows[k], start)[i];
             if Lists(w, k, c, filter) then
               |next| == |longer| + 1 && next[..|longer|] == longer && next[|longer|].record.id == c.id
             else next == longer
    ensures Upto(w, k, filter, l, page, start, next, From(w.rows[k], start)[i].cursor, i + 1)
  {
    MoveOn(w, k, start, i);
    hide WellStored, Lists, Sound, Fits, From, Listing, IdsOf;
    OneMore(w, k, filter, page, longer, next, From(w.rows[k], start), i);
  }

  lemma UptoRead(
    w: Stores, k: nat, filter: Option<string>, l: Limits, page: seq<Listed>, start: nat,
    longer: seq<Listed>, position: nat, i: nat)
    requires |w.stages| == PHASES && |w.rows| == PHASES && k < PHASES
    requires Upto(w, k, filter, l, page, start, longer, position, i)
    ensures Advanced(w, k, filter, l, page, start, longer, position)
    ensures i <= |From(w.rows[k], start)| && |From(w.rows[k], position)| == |From(w.rows[k], start)| - i
    ensures Fits(l, longer) && Sound(w, longer, filter)
  {
    hide Fits, Sound, Lists;
    var rows := From(w.rows[k], start);
    assert rows == rows[..i] + rows[i..];
    ListingSplit(w, k, rows[..i], rows[i..], filter);
    if i == 0 {
      assert rows[..0] == [];
      assert |IdsOf(longer[|page|..])| == 0;
    }
  }

  lemma MoveOn(w: Stores, k: nat, start: nat, i: nat)
    requires WellStored(w) && k < PHASES && i < |From(w.rows[k], start)|
    ensures var rows := From(w.rows[k], start); From(w.rows[k], rows[i].cursor) == rows[i + 1..]
  {
    FromRow(w.rows[k], start, i);
  }

  lemma OneMore(
    w: Stores, k: nat, filter: Option<string>, page: seq<Listed>, longer: seq<Listed>, next: seq<Listed>,
    rows: seq<Candidate>, i: nat)
    requires |w.stages| == PHASES && k < PHASES && i < |rows| && page <= longer
    requires IdsOf(longer[|page|..]) == Listing(w, k, rows[..i], filter)
    requires if Lists(w, k, rows[i], filter) then
               |next| == |longer| + 1 && next[..|longer|] == longer && next[|longer|].record.id == rows[i].id
             else next == longer
    ensures page <= next && IdsOf(next[|page|..]) == Listing(w, k, rows[..i + 1], filter)
  {
    hide Lists;
    assert rows[..i + 1][..i] == rows[..i];
    if Lists(w, k, rows[i], filter) {
      var x := next[|longer|];
      assert next == longer + [x];
      assert next[|page|..] == longer[|page|..] + [x];
      assert IdsOf(next[|page|..]) == IdsOf(longer[|page|..]) + [x.record.id];
    }
  }

  /** Positions after which this many rows are left, and these notifications to come. */
  lemma IdsSplit(page: seq<Listed>, longer: seq<Listed>)
    requires page <= longer
    ensures IdsOf(longer) == IdsOf(page) + IdsOf(longer[|page|..])
  {
  }

  lemma OneStore(
    w: Stores, k: nat, filter: Option<string>, l: Limits, page: seq<Listed>, p: seq<nat>, longer: seq<Listed>, position: nat)
    requires |w.stages| == PHASES && |w.rows| == PHASES && k < PHASES && |p| == PHASES
    requires Advanced(w, k, filter, l, page, p[k], longer, position)
    ensures var q := p[k := position];
            && multiset(IdsOf(page)) + Remaining(w, p, filter) == multiset(IdsOf(longer)) + Remaining(w, q, filter)
            && Left(w, q) <= Left(w, p) && (|longer| > |page| ==> Left(w, q) < Left(w, p))
            && (|From(w.rows[k], position)| < |From(w.rows[k], p[k])| ==> Left(w, q) < Left(w, p))
  {
    hide Fits, Sound, Listing, ToCome, IdsOf, From;
    var q := p[k := position];
    IdsSplit(page, longer);
    assert multiset(ToCome(w, k, p[k], filter)) == multiset(IdsOf(longer[|page|..])) + multiset(ToCome(w, k, q[k], filter));
    assert forall j :: 0 <= j < PHASES && j != k ==> q[j] == p[j];
  }

  /** One page. Whatever stops it, what it lists and what is still to come are together what was
      to come before; without a timeout it either looks at some row or is the last page. */
  method StallNotificationPage(w: Stores, filter: Option<string>, l: Limits, after: seq<nat>, time: Option<nat>)
    returns (r: Report)
    requires WellStored(w) && l.count >= 1 && |after| == PHASES
    ensures |r.positions| == PHASES && Fits(l, r.notifications) && Sound(w, r.notifications, filter)
    ensures Remaining(w, after, filter) == multiset(IdsOf(r.notifications)) + Remaining(w, r.positions, filter)
    ensures Left(w, r.positions) <= Left(w, after)
    ensures r.hasMore && !r.timedOut ==> Left(w, r.positions) < Left(w, after)
    ensures !r.hasMore ==> Left(w, r.positions) == 0
    ensures r.timedOut ==> r.hasMore && !r.complete && time.Some?
  {
    hide Sound, Lists, Remaining, Left;
    var page, used, positions, hasMore, complete, left: Option<nat> := [], OVERHEAD, after, false, true, time;
    EmptyPage(w, l, filter);
    var k := 0;
    while k < PHASES
      invariant 0 <= k <= PHASES && |positions| == PHASES
      invariant Fits(l, page) && Sound(w, page, filter) && used == Used(l, page)
      invariant multiset(IdsOf(page)) + Remaining(w, positions, filter) == Remaining(w, after, filter)
      invariant Left(w, positions) <= Left(w, after)
      invariant hasMore || page != [] ==> Left(w, positions) < Left(w, after)
      invariant !hasMore ==> forall j :: 0 <= j < k ==> From(w.rows[j], positions[j]) == []
      invariant forall j :: k <= j < PHASES ==> positions[j] == after[j]
      invariant left.Some? ==> time.Some?
    {
      var longer, now, position, end, more, whole, rest := ReadStore(w, k, filter, l, page, used, positions[k], left);
      OneStore(w, k, filter, l, page, positions, longer, position);
      ghost var before := positions;
      page, used, positions, left := longer, now, positions[k := position], rest;
      complete := complete && whole;
      if end.TimedOut? {
        return Report(page, positions, true, false, true);
      }
      if end.Full? {
        return Report(page, positions, true, complete, false);
      }
      hasMore := hasMore || more;
      k := k + 1;
    }
    assert !hasMore ==> Left(w, positions) == 0 by { NothingLeft(w, positions); }
    return Report(page, positions, hasMore, complete, false);
  }

  lemma EmptyPage(w: Stores, l: Limits, filter: Option<string>)
    requires |w.stages| == PHASES
    ensures Fits(l, []) && Sound(w, [], filter) && Used(l, []) == OVERHEAD && multiset(IdsOf([])) == multiset{}
  {
    assert IdsOf([]) == [];
  }

  lemma NothingLeft(w: Stores, p: seq<nat>)
    requires |w.rows| == PHASES && |p| == PHASES
    ensures (forall j :: 0 <= j < PHASES ==> From(w.rows[j], p[j]) == []) ==> Left(w, p) == 0
  {
  }

  /** Following the cursor to the last page lists everything that was to come, and ends. */
  method Follow(w: Stores, filter: Option<string>, l: Limits, after: seq<nat>) returns (all: seq<Listed>)
    requires WellStored(w) && l.count >= 1 && |after| == PHASES
    ensures multiset(IdsOf(all)) == Remaining(w, after, filter) && Sound(w, all, filter)
    decreases Left(w, after)
  {
    assert |w.rows| == PHASES && |w.stages| == PHASES;
    hide Lists, Remaining, Left, WellStored, Fits, Sound, IdsOf;
    var r := StallNotificationPage(w, filter, l, after, None);
    if !r.hasMore {
      NothingToCome(w, r.positions, filter);
      return r.notifications;
    }
    var rest := Follow(w, filter, l, r.positions);
    Together(w, r.notifications, rest, filter);
    return r.notifications + rest;
  }

  lemma Together(w: Stores, a: seq<Listed>, b: seq<Listed>, filter: Option<string>)
    requires |w.stages| == PHASES && Sound(w, a, filter) && Sound(w, b, filter)
    ensures IdsOf(a + b) == IdsOf(a) + IdsOf(b) && Sound(w, a + b, filter)
  {
    hide Describes;
  }

  lemma NothingToCome(w: Stores, p: seq<nat>, filter: Option<string>)
    requires |w.rows| == PHASES && |w.stages| == PHASES && |p| == PHASES && Left(w, p) == 0
    ensures Remaining(w, p, filter) == multiset{}
  {
    hide Lists;
    assert From(w.rows[0], p[0]) == [] && From(w.rows[1], p[1]) == [] && From(w.rows[2], p[2]) == [];
  }

  // ---------------------------------------------------------------- exactly once

  /** Some row lists the notification. */
  ghost predicate Has(w: Stores, k: nat, rows: seq<Candidate>, filter: Option<string>, id: string)
    requires |w.stages| == PHASES && k < PHASES
  {
    exists i :: 0 <= i < |rows| && rows[i].id == id && Lists(w, k, rows[i], filter)
  }

  ghost predicate DistinctIds(rows: seq<Candidate>)
  {
    forall i, j :: 0 <= i < j < |rows| && rows[i].ours && rows[j].ours ==> rows[i].id != rows[j].id
  }

  lemma {:induction false} ListedTimes(w: Stores, k: nat, rows: seq<Candidate>, filter: Option<string>, id: string)
    requires |w.stages| == PHASES && k < PHASES && DistinctIds(rows)
    ensures multiset(Listing(w, k, rows, filter))[id] == if Has(w, k, rows, filter, id) then 1 else 0
    decreases |rows|
  {
    if rows != [] {
      hide Lists;
      var rest, last := rows[..|rows| - 1], rows[|rows| - 1];
      ListedTimes(w, k, rest, filter, id);
      HasSplit(w, k, rows, filter, id);
    }
  }

  lemma HasSplit(w: Stores, k: nat, rows: seq<Candidate>, filter: Option<string>, id: string)
    requires |w.stages| == PHASES && k < PHASES && DistinctIds(rows) && rows != []
    ensures var rest, last := rows[..|rows| - 1], rows[|rows| - 1];
            && (Has(w, k, rows, filter, id) <==> Has(w, k, rest, filter, id) || (last.id == id && Lists(w, k, last, filter)))
            && !(Has(w, k, rest, filter, id) && last.id == id && Lists(w, k, last, filter))
  {
    hide Owns, Matches;
    var rest := rows[..|rows| - 1];
    if Has(w, k, rest, filter, id) {
      var i :| 0 <= i < |rest| && rest[i].id == id && Lists(w, k, rest[i], filter);
      assert rows[i] == rest[i];
    }
  }

  /** From the beginning, each stalled notification that matches the filter comes exactly once,
      and nothing else comes. */
  lemma EachExactlyOnce(w: Stores, filter: Option<string>, id: string)
    requires WellStored(w)
    ensures Remaining(w, [0, 0, 0], filter)[id] == if Matches(w, id, filter) then 1 else 0
  {
    StoreTimes(w, 0, filter, id);
    StoreTimes(w, 1, filter, id);
    StoreTimes(w, 2, filter, id);
    assert |w.rows| == PHASES && |w.stages| == PHASES;
    hide WellStored, ToCome;
    OneOwner(w, filter, id);
    hide Has, Matches;
  }

  lemma StoreTimes(w: Stores, k: nat, filter: Option<string>, id: string)
    requires WellStored(w) && k < PHASES
    ensures multiset(ToCome(w, k, 0, filter))[id] == if Has(w, k, w.rows[k], filter, id) then 1 else 0
  {
    FromAll(w.rows[k]);
    hide Has, Listing, From;
    assert DistinctIds(w.rows[k]);
    ListedTimes(w, k, w.rows[k], filter, id);
  }

  /** Exactly one store has the notification listed if it matches, and none otherwise. */
  lemma OneOwner(w: Stores, filter: Option<string>, id: string)
    requires WellStored(w) && |w.rows| == PHASES && |w.stages| == PHASES
    ensures (if Has(w, 0, w.rows[0], filter, id) then 1 else 0) + (if Has(w, 1, w.rows[1], filter, id) then 1 else 0)
      + (if Has(w, 2, w.rows[2], filter, id) then 1 else 0) == if Matches(w, id, filter) then 1 else 0
  {
    hide WellStored, Matches;
    if Matches(w, id, filter) {
      MatchHasOwner(w, id, filter);
      var k, i :| 0 <= k < PHASES && 0 <= i < |w.rows[k]| && w.rows[k][i].id == id && Lists(w, k, w.rows[k][i], filter);
      assert Has(w, k, w.rows[k], filter, id);
    }
  }

  /** The first store that knows a notification has a row that lists it, and no other store has. */
  lemma MatchHasOwner(w: Stores, id: string, filter: Option<string>)
    requires WellStored(w) && Matches(w, id, filter)
    ensures exists k, i :: 0 <= k < PHASES && 0 <= i < |w.rows[k]| && w.rows[k][i].id == id && Lists(w, k, w.rows[k][i], filter)
  {
    var k := OwnerOf(w, id, filter);
    hide Matches, Owns;
    var i :| 0 <= i < |w.rows[k]| && w.rows[k][i].ours && w.rows[k][i].id == id;
    hide WellStored;
    assert Lists(w, k, w.rows[k][i], filter);
  }

  lemma OwnerOf(w: Stores, id: string, filter: Option<string>) returns (k: nat)
    requires |w.stages| == |w.rows| == PHASES && Matches(w, id, filter)
    ensures k < PHASES && Owns(w, k, id) && id in w.stages[k]
  {
    hide Matches;
    InSome(w, id, filter);
    k := if id in w.stages[0] then 0 else if id in w.stages[1] then 1 else 2;
  }

  lemma InSome(w: Stores, id: string, filter: Option<string>)
    requires |w.stages| == PHASES && Matches(w, id, filter)
    ensures id in w.stages[0] || id in w.stages[1] || id in w.stages[2]
  {
  }
}
