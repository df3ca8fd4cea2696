/** Keyset pagination (ListPayments in go-api/internal/postgres/store.go) against the plain sorted list. */
module Pagination {
  import opened Common
  import opened Cursor

  /** A payment as the list shows it; `id` stands for the UUID's place in UUID order. */
  datatype Row = Row(
    createdAt: int, id: nat, status: string, provider: Option<string>,
    source: string, destination: string, mode: string)

  datatype Filter = Filter(
    status: Option<string>, provider: Option<string>,
    source: Option<string>, destination: Option<string>, mode: Option<string>)

  datatype Key = Key(createdAt: int, id: nat)

  function KeyOf(r: Row): Key {
    Key(r.createdAt, r.id)
  }

  /** `(created_at, id) < (created_at, id)` on row values. */
  predicate Below(a: Key, b: Key) {
    a.createdAt < b.createdAt || (a.createdAt == b.createdAt && a.id < b.id)
  }

  predicate Fits(f: Filter, r: Row) {
    && (f.status.Some? ==> r.status == f.status.value)
    && (f.provider.Some? ==> r.provider == f.provider)
    && (f.source.Some? ==> r.source == f.source.value)
    && (f.destination.Some? ==> r.destination == f.destination.value)
    && (f.mode.Some? ==> r.mode == f.mode.value)
  }

  /** The row shows what the filter asks for, wherever it asks for anything. */
  ghost predicate Agrees(r: Row, status: Option<string>, provider: Option<string>, source: Option<string>,
                         destination: Option<string>, mode: Option<string>) {
    && (status == None || status == Some(r.status))
    && (provider == None || provider == r.provider)
    && (source == None || source == Some(r.source))
    && (destination == None || destination == Some(r.destination))
    && (mode == None || mode == Some(r.mode))
  }

  /** Newest first; of two rows of the same moment the one with the higher ID comes first. */
  ghost predicate NewestFirst(rows: seq<Row>) {
    forall i, j :: 0 <= i < j < |rows| ==>
      rows[i].createdAt > rows[j].createdAt || (rows[i].createdAt == rows[j].createdAt && rows[i].id > rows[j].id)
  }

  lemma FitsExactly(f: Filter, r: Row)
    ensures Fits(f, r) <==> Agrees(r, f.status, f.provider, f.source, f.destination, f.mode)
  {
  }

  lemma DescendingIs(rows: seq<Row>)
    ensures Descending(rows) <==> NewestFirst(rows)
  {
  }

  /** The table in list order: newest first, IDs breaking ties. */
  ghost predicate Descending(table: seq<Row>) {
    forall i, j :: 0 <= i < j < |table| ==> Below(KeyOf(table[j]), KeyOf(table[i]))
  }

  predicate Wanted(f: Filter, after: Option<Key>, r: Row) {
    Fits(f, r) && (after.Some? ==> Below(KeyOf(r), after.value))
  }

  /** Every row the filter keeps, below the cursor if there is one, in list order. */
  function Matching(table: seq<Row>, f: Filter, after: Option<Key>): seq<Row> {
    if table == [] then []
    else (if Wanted(f, after, table[0]) then [table[0]] else []) + Matching(table[1..], f, after)
  }

  /** The matches are exactly the wanted rows of the table, and they keep its order. */
  lemma {:induction false} MatchingIsTheList(table: seq<Row>, f: Filter, after: Option<Key>)
    requires Descending(table)
    ensures Descending(Matching(table, f, after))
    ensures forall r :: r in Matching(table, f, after) <==> r in table && Wanted(f, after, r)
  {
    hide Wanted, KeyOf, Below;
    if table != [] {
      var rest := Matching(table[1..], f, after);
      MatchingIsTheList(table[1..], f, after);
      assert forall r :: r in table <==> r == table[0] || r in table[1..];
      if Wanted(f, after, table[0]) {
        forall j | 0 <= j < |rest|
          ensures Below(KeyOf(rest[j]), KeyOf(table[0]))
        {
          assert rest[j] in table[1..];
        }
      }
    }
  }

  /** How timestamps and IDs are written as text; RFC 3339 and UUID text have no comma, and reading undoes writing. */
  datatype Texts =
    Texts(time: int -> Bytes, readTime: string -> Option<int>, id: nat -> Bytes, readId: string -> Option<nat>)

  ghost predicate Faithful(t: Texts) {
    && (forall x :: t.readTime(t.time(x)) == Some(x) && ',' !in t.time(x))
    && (forall x: nat :: t.readId(t.id(x)) == Some(x))
  }

  datatype ListError = BadCursor | QueryFailed

  function CursorOf(t: Texts, k: Key): (c: string)
    ensures c != ""
  {
    CursorRoundTrip(t.time(k.createdAt), t.id(k.id));
    EncodeCursor(t.time(k.createdAt), t.id(k.id))
  }

  /** What a cursor string means to the query; the empty string is the first page. */
  function ReadCursor(t: Texts, cursor: string): Result<Option<Key>, ListError> {
    if cursor == "" then Ok(None)
    else
      match DecodeCursor(cursor)
      case Err(_) => Err(BadCursor)
      case Ok(parts) =>
        var time, id := t.readTime(parts.0), t.readId(parts.1);
        if time.None? || id.None? then Err(QueryFailed) else Ok(Some(Key(time.value, id.value)))
  }

  lemma CursorIsRead(t: Texts, k: Key)
    requires Faithful(t)
    ensures ReadCursor(t, CursorOf(t, k)) == Ok(Some(k))
  {
    hide EncodeCursor, DecodeCursor;
    CursorRoundTrip(t.time(k.createdAt), t.id(k.id));
  }

  function PageSize(limit: int): (n: nat)
    ensures n > 0
  {
    if limit <= 0 then 25 else limit
  }

  /** The first `n` wanted rows, scanned off the index. */
  method Query(table: seq<Row>, f: Filter, after: Option<Key>, n: nat) returns (rows: seq<Row>)
    ensures var all := Matching(table, f, after); rows == if |all| <= n then all else all[..n]
  {
    rows := [];
    var i := 0;
    while i < |table| && |rows| < n
      invariant 0 <= i <= |table| && |rows| <= n
      invariant rows + Matching(table[i..], f, after) == Matching(table, f, after)
    {
      assert table[i..][1..] == table[i + 1..];
      if Wanted(f, after, table[i]) { rows := rows + [table[i]]; }
      i := i + 1;
    }
  }

  /** One page: one row more than asked for is fetched, to learn whether there is a next page. */
  method ListPayments(t: Texts, table: seq<Row>, f: Filter, cursor: string, limit: int)
    returns (r: Result<(seq<Row>, string), ListError>)
    ensures r.Err? <==> ReadCursor(t, cursor).Err?
    ensures r.Err? ==> r.error == ReadCursor(t, cursor).error
    ensures r == Err(BadCursor) <==> cursor != "" && DecodeCursor(cursor).Err?
    ensures r.Ok? ==>
      var all, n := Matching(table, f, ReadCursor(t, cursor).value), if limit <= 0 then 25 else limit;
      if |all| <= n then r.value == (all, "") else r.value == (all[..n], CursorOf(t, KeyOf(all[n - 1])))
    ensures r.Ok? ==> forall row <- r.value.0 ::
      && row in table && Agrees(row, f.status, f.provider, f.source, f.destination, f.mode)
      && (ReadCursor(t, cursor).value.Some? ==>
        var k := ReadCursor(t, cursor).value.value;
        row.createdAt < k.createdAt || (row.createdAt == k.createdAt && row.id < k.id))
    ensures r.Ok? && NewestFirst(table) ==> NewestFirst(r.value.0)
  {
    hide Matching, CursorOf, EncodeCursor, DecodeCursor, Agrees, Fits, NewestFirst, Below, KeyOf;
    var read := ReadCursor(t, cursor);
    if read.Err? { return Err(read.error); }
    var n := PageSize(limit);
    var rows := Query(table, f, read.value, n + 1);
    var next := "";
    ghost var all := Matching(table, f, read.value);
    if |rows| > n {
      assert all[..n + 1][..n] == all[..n];
      next := CursorOf(t, KeyOf(rows[n - 1]));
      rows := rows[..n];
    }
    assert rows == all[..|rows|];
    PageRows(table, f, read.value, |rows|);
    r := Ok((rows, next));
  }

  /** What the first `n` matches are, on the fields of the rows. */
  lemma PageRows(table: seq<Row>, f: Filter, after: Option<Key>, n: nat)
    requires n <= |Matching(table, f, after)|
    ensures forall row <- Matching(table, f, after)[..n] ::
      && row in table && Agrees(row, f.status, f.provider, f.source, f.destination, f.mode)
      && (after.Some? ==>
        row.createdAt < after.value.createdAt || (row.createdAt == after.value.createdAt && row.id < after.value.id))
    ensures NewestFirst(table) ==> NewestFirst(Matching(table, f, after)[..n])
  {
    hide Matching, Agrees, Fits;
    var all := Matching(table, f, after);
    MatchesAreWanted(table, f, after);
    forall row | row in all[..n]
      ensures row in table && Agrees(row, f.status, f.provider, f.source, f.destination, f.mode)
      ensures after.Some? ==>
        row.createdAt < after.value.createdAt || (row.createdAt == after.value.createdAt && row.id < after.value.id)
    {
      assert row in all && Wanted(f, after, row);
      FitsExactly(f, row);
    }
    if NewestFirst(table) {
      DescendingIs(table);
      MatchingIsTheList(table, f, after);
      DescendingIs(all);
      assert NewestFirst(all[..n]);
    }
  }

  lemma {:induction false} MatchesAreWanted(table: seq<Row>, f: Filter, after: Option<Key>)
    ensures forall r :: r in Matching(table, f, after) <==> r in table && Wanted(f, after, r)
  {
    hide Wanted;
    if table != [] {
      MatchesAreWanted(table[1..], f, after);
      assert forall r :: r in table <==> r == table[0] || r in table[1..];
    }
  }

  // ---- Following the cursor ----

  lemma {:induction false} MatchingAppend(a: seq<Row>, b: seq<Row>, f: Filter, after: Option<Key>)
    ensures Matching(a + b, f, after) == Matching(a, f, after) + Matching(b, f, after)
  {
    if a == [] {
      assert a + b == b;
    } else {
      assert (a + b)[1..] == a[1..] + b;
      MatchingAppend(a[1..], b, f, after);
    }
  }

  /** Rows that are all at or above the cursor do not match. */
  lemma {:induction false} AboveCursor(table: seq<Row>, f: Filter, k: Key)
    requires forall i :: 0 <= i < |table| ==> !Below(KeyOf(table[i]), k)
    ensures Matching(table, f, Some(k)) == []
  {
    if table != [] { AboveCursor(table[1..], f, k); }
  }

  /** Rows all below the cursor match as if there were none, or as under any higher cursor. */
  lemma {:induction false} BelowCursor(table: seq<Row>, f: Filter, k: Key, after: Option<Key>)
    requires forall i :: 0 <= i < |table| ==> Below(KeyOf(table[i]), k)
    requires after.Some? ==> k == after.value || Below(k, after.value)
    ensures Matching(table, f, Some(k)) == Matching(table, f, after)
  {
    if table != [] { BelowCursor(table[1..], f, k, after); }
  }

  /** Every match is a row of the table, and cutting the matches cuts the table. */
  lemma {:induction false} MatchSplits(table: seq<Row>, f: Filter, after: Option<Key>, n: nat) returns (m: nat)
    requires 0 < n <= |Matching(table, f, after)|
    ensures m < |table| && table[m] == Matching(table, f, after)[n - 1] && Wanted(f, after, table[m])
    ensures Matching(table[..m + 1], f, after) == Matching(table, f, after)[..n]
    ensures Matching(table[m + 1..], f, after) == Matching(table, f, after)[n..]
  {
    var head := if Wanted(f, after, table[0]) then [table[0]] else [];
    var rest := Matching(table[1..], f, after);
    assert Matching(table, f, after) == head + rest;
    if n == |head| {
      m := 0;
      assert table[..1] == [table[0]] && table[..1][1..] == [];
      assert Matching(table[..1], f, after) == head;
    } else {
      var k := MatchSplits(table[1..], f, after, n - |head|);
      m := k + 1;
      assert table[..m + 1][1..] == table[1..][..k + 1] && table[m + 1..] == table[1..][k + 1..];
      assert (head + rest)[..n] == head + rest[..n - |head|] && (head + rest)[n..] == rest[n - |head|..];
    }
  }

  /** The page after a cursor picks up exactly where the page before it ended. */
  lemma NextPage(table: seq<Row>, f: Filter, after: Option<Key>, n: nat)
    requires Descending(table) && 0 < n <= |Matching(table, f, after)|
    ensures var all := Matching(table, f, after); Matching(table, f, Some(KeyOf(all[n - 1]))) == all[n..]
  {
    hide Matching, KeyOf;
    var m := MatchSplits(table, f, after, n);
    var k := KeyOf(table[m]);
    assert table == table[..m + 1] + table[m + 1..];
    MatchingAppend(table[..m + 1], table[m + 1..], f, Some(k));
    NotBelow(table, m);
    AboveCursor(table[..m + 1], f, k);
    BelowCursor(table[m + 1..], f, k, after);
  }

  lemma NotBelow(table: seq<Row>, m: nat)
    requires Descending(table) && m < |table|
    ensures forall i :: 0 <= i <= m ==> !Below(KeyOf(table[i]), KeyOf(table[m]))
    ensures forall i :: m < i < |table| ==> Below(KeyOf(table[i]), KeyOf(table[m]))
  {
  }

  /** Newer rows do not show below a cursor. */
  lemma NewerRowsAreHidden(newer: seq<Row>, table: seq<Row>, f: Filter, k: Key)
    requires forall i :: 0 <= i < |newer| ==> !Below(KeyOf(newer[i]), k)
    ensures Matching(newer + table, f, Some(k)) == Matching(table, f, Some(k))
  {
    hide Matching;
    MatchingAppend(newer, table, f, Some(k));
    AboveCursor(newer, f, k);
  }

  /** The table as each request finds it: payments are only ever added, each newer than all before it. */
  ghost predicate Growing(tables: nat -> seq<Row>) {
    (forall i :: Descending(tables(i))) && forall i, j :: 0 <= i <= j ==> exists newer :: tables(j) == newer + tables(i)
  }

  lemma LaterPage(tables: nat -> seq<Row>, f: Filter, k: nat, m: nat)
    requires Growing(tables) && m < |tables(0)|
    ensures Matching(tables(k), f, Some(KeyOf(tables(0)[m]))) == Matching(tables(0), f, Some(KeyOf(tables(0)[m])))
  {
    hide Matching, KeyOf, Descending;
    var newer :| tables(k) == newer + tables(0);
    NewerIsAbove(newer, tables(0), m);
    NewerRowsAreHidden(newer, tables(0), f, KeyOf(tables(0)[m]));
  }

  lemma NewerIsAbove(newer: seq<Row>, table: seq<Row>, m: nat)
    requires Descending(newer + table) && m < |table|
    ensures forall i :: 0 <= i < |newer| ==> !Below(KeyOf(newer[i]), KeyOf(table[m]))
  {
    var all := newer + table;
    assert all[|newer| + m] == table[m] && forall i :: 0 <= i < |newer| ==> all[i] == newer[i];
  }

  /**
   * A client that follows `next_cursor` to the end sees the filtered
   * list of the first request, each row once, in order.
   */
  method FollowCursors(t: Texts, tables: nat -> seq<Row>, f: Filter, limit: int) returns (all: seq<Row>)
    requires Faithful(t) && Growing(tables)
    ensures all == Matching(tables(0), f, None) && NewestFirst(all)
    ensures forall row :: row in all <==>
      row in tables(0) && Agrees(row, f.status, f.provider, f.source, f.destination, f.mode)
  {
    hide Matching, CursorOf, ReadCursor, Growing, Faithful, KeyOf, Agrees, NewestFirst, Below;
    ListRows(tables, f);
    ghost var list := Matching(tables(0), f, None);
    FirstPage(t);
    var page := ListPayments(t, tables(0), f, "", limit);
    all := page.value.0;
    var cursor := page.value.1;
    var k: nat := 0;
    while cursor != ""
      invariant |all| <= |list| && all == list[..|all|]
      invariant
        if cursor == "" then |all| == |list|
        else 0 < |all| < |list| && cursor == CursorOf(t, KeyOf(list[|all| - 1]))
      decreases |list| - |all|
    {
      k := k + 1;
      Remaining(t, tables, f, k, |all|);
      page := ListPayments(t, tables(k), f, cursor, limit);
      ghost var rest := list[|all|..];
      assert list == list[..|all|] + rest;
      all := all + page.value.0;
      cursor := page.value.1;
    }
  }

  /** The list of the first request, on the fields of its rows. */
  lemma ListRows(tables: nat -> seq<Row>, f: Filter)
    requires Growing(tables)
    ensures NewestFirst(Matching(tables(0), f, None))
    ensures forall row :: row in Matching(tables(0), f, None) <==>
      row in tables(0) && Agrees(row, f.status, f.provider, f.source, f.destination, f.mode)
  {
    hide Matching, Agrees, Fits, Below, KeyOf, NewestFirst;
    MatchingIsTheList(tables(0), f, None);
    DescendingIs(Matching(tables(0), f, None));
    forall row
      ensures Fits(f, row) <==> Agrees(row, f.status, f.provider, f.source, f.destination, f.mode)
    {
      FitsExactly(f, row);
    }
  }

  lemma FirstPage(t: Texts)
    ensures ReadCursor(t, "") == Ok(None)
  {
  }

  lemma Remaining(t: Texts, tables: nat -> seq<Row>, f: Filter, k: nat, n: nat)
    requires Faithful(t) && Growing(tables) && 0 < n <= |Matching(tables(0), f, None)|
    ensures var list := Matching(tables(0), f, None); var key := KeyOf(list[n - 1]);
      ReadCursor(t, CursorOf(t, key)) == Ok(Some(key)) && Matching(tables(k), f, Some(key)) == list[n..]
  {
    hide Matching, KeyOf, CursorOf, ReadCursor, Faithful;
    var list := Matching(tables(0), f, None);
    CursorIsRead(t, KeyOf(list[n - 1]));
    var m := MatchSplits(tables(0), f, None, n);
    LaterPage(tables, f, k, m);
    NextPage(tables(0), f, None, n);
  }
}
