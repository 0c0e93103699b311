/** The list endpoint of internal/api/handlers/notifications.go: five optional filters become a
    parametrised SQL condition, and the selection is cut into pages. */
module Listing {
  import opened Backoff
  import M = Model

  // ---- the database's side: conditions, arguments, rows ----

  datatype Column = StatusColumn | ChannelColumn | BatchColumn | CreatedColumn
  datatype Op = Equal | AtLeast | AtMost

  /** "1=1", or a column compared with the numbered parameter. */
  datatype Cond = Always | Test(column: Column, op: Op, param: nat)

  datatype Arg = Text(text: string) | Number(number: int)

  datatype Row = Row(id: nat, status: string, channel: string, batch: M.Option<nat>, created: int)

  /** The notifications in the order ORDER BY created_at DESC gives them, and the database's
      readings of a UUID and of an instant; text it cannot read makes the statement fail. */
  datatype Table = Table(order: seq<Row>, uuid: string -> M.Option<nat>, instant: string -> M.Option<int>)

  predicate Readable(db: Table, column: Column, text: string) {
    match column
    case BatchColumn => db.uuid(text).Some?
    case CreatedColumn => db.instant(text).Some?
    case _ => true
  }

  /** Every parameter is bound to a readable argument. */
  predicate Bound(db: Table, conds: seq<Cond>, args: seq<Arg>) {
    forall k :: 0 <= k < |conds| && conds[k].Test? ==>
      && 1 <= conds[k].param <= |args| && args[conds[k].param - 1].Text?
      && Readable(db, conds[k].column, args[conds[k].param - 1].text)
  }

  predicate Compare(op: Op, x: int, y: int) {
    match op
    case Equal => x == y
    case AtLeast => x >= y
    case AtMost => x <= y
  }

  /** The comparison of a column with a readable text; NULL compares as false. */
  predicate Passes(db: Table, row: Row, column: Column, op: Op, text: string) {
    match column
    case StatusColumn => row.status == text
    case ChannelColumn => row.channel == text
    case BatchColumn => row.batch.Some? && row.batch == db.uuid(text)
    case CreatedColumn => Compare(op, row.created, db.instant(text).GetOr(0))
  }

  /** The WHERE clause: all conditions, joined by AND. */
  predicate Holds(db: Table, conds: seq<Cond>, args: seq<Arg>, row: Row)
    requires Bound(db, conds, args)
  {
    forall k :: 0 <= k < |conds| && conds[k].Test? ==>
      Passes(db, row, conds[k].column, conds[k].op, args[conds[k].param - 1].text)
  }

  function Select(db: Table, rows: seq<Row>, conds: seq<Cond>, args: seq<Arg>): seq<Row>
    requires Bound(db, conds, args)
  {
    if rows == [] then []
    else (if Holds(db, conds, args, rows[0]) then [rows[0]] else []) + Select(db, rows[1..], conds, args)
  }

  function Slice(rows: seq<Row>, offset: nat, limit: nat): seq<Row> {
    if offset >= |rows| then []
    else if offset + limit >= |rows| then rows[offset..]
    else rows[offset..offset + limit]
  }

  /** What the database sends in answer to a query: rows, and whether it then reports an error. */
  datatype Cursor = Cursor(rows: seq<Row>, error: bool)

  /** SELECT ... WHERE conds LIMIT $limit OFFSET $offset. A parameter that cannot be bound, or a
      negative LIMIT or OFFSET, is an error found during execution, before any row. */
  function Page(db: Table, conds: seq<Cond>, limit: nat, offset: nat, args: seq<Arg>): Cursor {
    if !Bound(db, conds, args) || !(1 <= limit <= |args|) || !(1 <= offset <= |args|) then Cursor([], true)
    else if !args[limit - 1].Number? || !args[offset - 1].Number? then Cursor([], true)
    else if args[limit - 1].number < 0 || args[offset - 1].number < 0 then Cursor([], true)
    else Cursor(Slice(Select(db, db.order, conds, args), args[offset - 1].number, args[limit - 1].number), false)
  }

  // ---- the filters ----

  /** The five query parameters; an empty one is absent. */
  datatype Filters = Filters(status: string, channel: string, batch: string, dateFrom: string, dateTo: string)

  predicate FiltersReadable(db: Table, f: Filters) {
    && (f.batch != "" ==> db.uuid(f.batch).Some?)
    && (f.dateFrom != "" ==> db.instant(f.dateFrom).Some?)
    && (f.dateTo != "" ==> db.instant(f.dateTo).Some?)
  }

  /** What the filters ask for. */
  predicate Meets(db: Table, f: Filters, row: Row)
    requires FiltersReadable(db, f)
  {
    && (f.status == "" || row.status == f.status)
    && (f.channel == "" || row.channel == f.channel)
    && (f.batch == "" || row.batch == db.uuid(f.batch))
    && (f.dateFrom == "" || db.instant(f.dateFrom).value <= row.created)
    && (f.dateTo == "" || row.created <= db.instant(f.dateTo).value)
  }

  function Selection(db: Table, rows: seq<Row>, f: Filters): seq<Row>
    requires FiltersReadable(db, f)
  {
    if rows == [] then []
    else (if Meets(db, f, rows[0]) then [rows[0]] else []) + Selection(db, rows[1..], f)
  }

  lemma {:induction false} SelectionConcat(db: Table, a: seq<Row>, b: seq<Row>, f: Filters)
    requires FiltersReadable(db, f)
    ensures Selection(db, a + b, f) == Selection(db, a, f) + Selection(db, b, f)
    decreases |a|
  {
    if a == [] {
      assert a + b == b;
    } else {
      assert (a + b)[0] == a[0] && (a + b)[1..] == a[1..] + b;
      SelectionConcat(db, a[1..], b, f);
    }
  }

  /** The selection contains every row that meets the filters, as often as it is there, and no other. */
  lemma {:induction false} SelectionCount(db: Table, rows: seq<Row>, f: Filters, row: Row)
    requires FiltersReadable(db, f)
    ensures multiset(Selection(db, rows, f))[row] == if Meets(db, f, row) then multiset(rows)[row] else 0
    decreases |rows|
  {
    if rows != [] {
      assert rows == [rows[0]] + rows[1..];
      SelectionCount(db, rows[1..], f, row);
    }
  }

  /** Its size is the number of places in the table whose row meets the filters. */
  lemma {:induction false} SelectionSize(db: Table, rows: seq<Row>, f: Filters)
    requires FiltersReadable(db, f)
    ensures |Selection(db, rows, f)| == |set k: nat | k < |rows| && Meets(db, f, rows[k])|
    decreases |rows|
  {
    if rows != [] {
      var n := |rows| - 1;
      assert rows == rows[..n] + [rows[n]];
      SelectionConcat(db, rows[..n], [rows[n]], f);
      SelectionSize(db, rows[..n], f);
      LastPlace(db, rows, f);
      assert Selection(db, [rows[n]], f) == if Meets(db, f, rows[n]) then [rows[n]] else [];
    }
  }

  lemma LastPlace(db: Table, rows: seq<Row>, f: Filters)
    requires FiltersReadable(db, f) && rows != []
    ensures var n := |rows| - 1;
      |set k: nat | k < |rows| && Meets(db, f, rows[k])|
        == |set k: nat | k < n && Meets(db, f, rows[..n][k])| + (if Meets(db, f, rows[n]) then 1 else 0)
  {
    var n := |rows| - 1;
    var before := set k: nat | k < n && Meets(db, f, rows[..n][k]);
    var all := set k: nat | k < |rows| && Meets(db, f, rows[k]);
    assert all == if Meets(db, f, rows[n]) then before + {n} else before;
  }

  /** The filters act one by one, an absent one on no row, and the date bounds belong to the range. */
  lemma FilterByFilter(db: Table, f: Filters, row: Row)
    requires FiltersReadable(db, f)
    ensures Meets(db, f, row) <==>
      && (f.status != "" ==> f.status == row.status) && (f.channel != "" ==> f.channel == row.channel)
      && (f.batch != "" ==> row.batch.Some? && db.uuid(f.batch) == row.batch)
      && (f.dateFrom != "" ==> !(row.created < db.instant(f.dateFrom).value))
      && (f.dateTo != "" ==> !(row.created > db.instant(f.dateTo).value))
    ensures Meets(db, Filters("", "", "", "", ""), row)
  {
  }

  // ---- building the condition ----

  /** The conditions use the arguments one by one, in order. */
  predicate Numbered(conds: seq<Cond>, args: seq<Arg>) {
    && |conds| == |args| + 1 && conds[0] == Always
    && (forall k :: 1 <= k < |conds| ==> conds[k].Test? && conds[k].param == k)
    && (forall k :: 0 <= k < |args| ==> args[k].Text?)
  }

  lemma AddedFilter(db: Table, conds: seq<Cond>, args: seq<Arg>, column: Column, op: Op, v: string)
    requires Numbered(conds, args)
    ensures var conds', args' := conds + [Test(column, op, |args| + 1)], args + [Text(v)];
      && Numbered(conds', args')
      && (Bound(db, conds', args') <==> Bound(db, conds, args) && Readable(db, column, v))
      && (Bound(db, conds', args') ==> forall row ::
            Holds(db, conds', args', row) <==> Holds(db, conds, args, row) && Passes(db, row, column, op, v))
  {
    var conds', args' := conds + [Test(column, op, |args| + 1)], args + [Text(v)];
    var n := |args|;
    assert args'[n] == Text(v) && conds'[n + 1] == Test(column, op, n + 1);
    forall k | 0 <= k < |conds| && conds[k].Test?
      ensures conds'[k] == conds[k] && 1 <= conds[k].param <= n && args'[conds[k].param - 1] == args[conds[k].param - 1]
    {
      assert conds[k].param == k;
    }
  }

  /** One filter: nothing when it is empty, else a condition, its argument and the next number. */
  method AddFilter(ghost db: Table, conds: seq<Cond>, args: seq<Arg>, argIdx: nat, column: Column, op: Op, v: string)
    returns (moreConds: seq<Cond>, moreArgs: seq<Arg>, nextIdx: nat)
    requires Numbered(conds, args) && argIdx == |args| + 1
    ensures Numbered(moreConds, moreArgs) && nextIdx == |moreArgs| + 1
    ensures Bound(db, moreConds, moreArgs) <==> Bound(db, conds, args) && (v != "" ==> Readable(db, column, v))
    ensures Bound(db, moreConds, moreArgs) ==> forall row ::
      Holds(db, moreConds, moreArgs, row) <==>
        Holds(db, conds, args, row) && (v != "" ==> Passes(db, row, column, op, v))
  {
    moreConds, moreArgs, nextIdx := conds, args, argIdx;
    if v != "" {
      moreConds := moreConds + [Test(column, op, argIdx)];
      moreArgs := moreArgs + [Text(v)];
      nextIdx := nextIdx + 1;
      AddedFilter(db, conds, args, column, op, v);
    }
  }

  /** The generated condition with its arguments selects exactly the rows that meet the filters, for
      every choice and value of the five; it fails on an unreadable filter only. */
  method BuildWhere(ghost db: Table, f: Filters) returns (conds: seq<Cond>, args: seq<Arg>, argIdx: nat)
    ensures Numbered(conds, args) && argIdx == |args| + 1
    ensures Bound(db, conds, args) <==> FiltersReadable(db, f)
    ensures FiltersReadable(db, f) ==> forall row :: Holds(db, conds, args, row) <==> Meets(db, f, row)
  {
    conds := [Always];
    args := [];
    argIdx := 1;
    conds, args, argIdx := AddFilter(db, conds, args, argIdx, StatusColumn, Equal, f.status);
    conds, args, argIdx := AddFilter(db, conds, args, argIdx, ChannelColumn, Equal, f.channel);
    conds, args, argIdx := AddFilter(db, conds, args, argIdx, BatchColumn, Equal, f.batch);
    conds, args, argIdx := AddFilter(db, conds, args, argIdx, CreatedColumn, AtLeast, f.dateFrom);
    conds, args, argIdx := AddFilter(db, conds, args, argIdx, CreatedColumn, AtMost, f.dateTo);
  }

  /** Arguments that no condition refers to change nothing. */
  lemma ExtraArgs(db: Table, conds: seq<Cond>, args: seq<Arg>, extra: seq<Arg>)
    requires Numbered(conds, args)
    ensures Bound(db, conds, args + extra) <==> Bound(db, conds, args)
    ensures Bound(db, conds, args) ==>
      forall row :: Holds(db, conds, args + extra, row) <==> Holds(db, conds, args, row)
  {
    forall k | 0 <= k < |conds| && conds[k].Test?
      ensures 1 <= conds[k].param <= |args| && (args + extra)[conds[k].param - 1] == args[conds[k].param - 1]
    {
      assert conds[k].param == k;
    }
  }

  lemma {:induction false} SameSelection(db: Table, rows: seq<Row>, conds: seq<Cond>, args: seq<Arg>, f: Filters)
    requires Bound(db, conds, args) && FiltersReadable(db, f)
    requires forall row :: Holds(db, conds, args, row) <==> Meets(db, f, row)
    ensures Select(db, rows, conds, args) == Selection(db, rows, f)
    decreases |rows|
  {
    if rows != [] { SameSelection(db, rows[1..], conds, args, f); }
  }

  // ---- page numbers ----

  const MIN_64: int := -TWO_63
  const MAX_64: int := TWO_63 - 1

  const MAX_U64: int := TWO_64 - 1

  predicate IsDigit(c: char) {
    '0' <= c <= '9'
  }

  function DigitOf(c: char): nat
    requires IsDigit(c)
  {
    c as int - '0' as int
  }

  predicate IsDigits(s: string) {
    s != "" && forall k :: 0 <= k < |s| ==> IsDigit(s[k])
  }

  function Clamp(x: int): int {
    if x < MIN_64 then MIN_64 else if x > MAX_64 then MAX_64 else x
  }

  /** The number that the digits of `s` continue from `n`. */
  function Value(s: string, n: nat): (v: nat)
    requires forall k :: 0 <= k < |s| ==> IsDigit(s[k])
    ensures v >= n
    decreases |s|
  {
    if s == "" then n else Value(s[1..], 10 * n + DigitOf(s[0]))
  }

  /** The loop of strconv.ParseUint, from left to right: it stops at the first character that is no
      digit, with a syntax error, or at the first digit that leaves the range, with the greatest
      uint64. */
  function Scanned(s: string, n: nat): M.Option<nat>
    decreases |s|
  {
    if s == "" then M.Some(n)
    else if !IsDigit(s[0]) then M.None
    else
      var m := 10 * n + DigitOf(s[0]);
      if m > MAX_U64 then M.Some(MAX_U64) else Scanned(s[1..], m)
  }

  /** strconv.Atoi's value for a sign and the text after it, its error ignored. */
  function Signed(negative: bool, s: string): int {
    if s == "" then 0
    else
      match Scanned(s, 0)
      case None => 0
      case Some(u) => Clamp(if negative then 0 - u else u)
  }

  /** The value of strconv.Atoi, its error ignored. */
  function Atoi(s: string): int {
    if s != "" && s[0] == '-' then Signed(true, s[1..])
    else if s != "" && s[0] == '+' then Signed(false, s[1..])
    else Signed(false, s)
  }

  lemma {:induction false} ScannedDigits(s: string, n: nat)
    requires forall k :: 0 <= k < |s| ==> IsDigit(s[k])
    ensures n <= MAX_U64 ==> Scanned(s, n) == M.Some(if Value(s, n) > MAX_U64 then MAX_U64 else Value(s, n))
    decreases |s|
  {
    if s != "" { ScannedDigits(s[1..], 10 * n + DigitOf(s[0])); }
  }

  /** Digits, with or without a sign, are read as their number, or the nearest int64. */
  lemma AtoiOfDigits(s: string)
    requires IsDigits(s)
    ensures Atoi(s) == Clamp(Value(s, 0)) == Atoi("+" + s) && Atoi("-" + s) == Clamp(0 - Value(s, 0))
  {
    ScannedDigits(s, 0);
    assert IsDigit(s[0]);
    assert ("+" + s)[1..] == s && ("-" + s)[1..] == s;
  }

  lemma {:induction false} ScannedThen(s: string, rest: string, n: nat)
    requires forall k :: 0 <= k < |s| ==> IsDigit(s[k])
    requires rest != "" && !IsDigit(rest[0]) && n <= MAX_U64
    ensures Scanned(s + rest, n) == if Value(s, n) > MAX_U64 then M.Some(MAX_U64) else M.None
    decreases |s|
  {
    if s == "" {
      assert s + rest == rest;
    } else {
      var m := 10 * n + DigitOf(s[0]);
      assert (s + rest)[0] == s[0] && (s + rest)[1..] == s[1..] + rest;
      if m <= MAX_U64 { ScannedThen(s[1..], rest, m); }
    }
  }

  /** Digits followed by anything else are no number, and read as 0, unless the digits alone leave
      the uint64 range: then the greatest int64 is read. */
  lemma AtoiOfOther(s: string, rest: string)
    requires IsDigits(s) && rest != "" && !IsDigit(rest[0])
    ensures Atoi(s + rest) == if Value(s, 0) > MAX_U64 then MAX_64 else 0
  {
    ScannedThen(s, rest, 0);
    assert (s + rest)[0] == s[0] && IsDigit(s[0]);
  }

  /** Every digit is read as its number. */
  lemma AtoiOfOneDigit()
    ensures Atoi("0") == 0 && Atoi("1") == 1 && Atoi("2") == 2 && Atoi("3") == 3 && Atoi("4") == 4
    ensures Atoi("5") == 5 && Atoi("6") == 6 && Atoi("7") == 7 && Atoi("8") == 8 && Atoi("9") == 9
    ensures MAX_64 == 9_223_372_036_854_775_807 && MIN_64 == -9_223_372_036_854_775_808
  {
    OneDigit("0"); OneDigit("1"); OneDigit("2"); OneDigit("3"); OneDigit("4");
    OneDigit("5"); OneDigit("6"); OneDigit("7"); OneDigit("8"); OneDigit("9");
  }

  lemma OneDigit(s: string)
    requires |s| == 1 && IsDigit(s[0])
    ensures Atoi(s) == s[0] as int - 48
  {
    assert s[1..] == "";
    assert Scanned(s, 0) == Scanned("", DigitOf(s[0]));
  }

  function QueryOr(s: string, default: string): string {
    if s == "" then default else s
  }

  /** Page number and page size of a request. */
  method PageOf(pageText: string, sizeText: string) returns (page: int, pageSize: int)
    ensures 1 <= page <= MAX_64 && 1 <= pageSize <= 100
    ensures pageText == "" ==> page == 1
    ensures Atoi(pageText) >= 1 ==> page == Atoi(pageText)
    ensures Atoi(pageText) < 1 ==> page == 1
    ensures 1 <= Atoi(sizeText) <= 100 ==> pageSize == Atoi(sizeText)
    ensures !(1 <= Atoi(sizeText) <= 100) ==> pageSize == 20
  {
    AtoiOfDefaults();
    page := Atoi(QueryOr(pageText, "1"));
    pageSize := Atoi(QueryOr(sizeText, "20"));
    if page < 1 {
      page := 1;
    }
    if pageSize < 1 || pageSize > 100 {
      pageSize := 20;
    }
  }

  lemma AtoiOfDefaults()
    ensures Atoi("") == 0 && Atoi("1") == 1 && Atoi("20") == 20
  {
    assert "1"[1..] == "" && "20"[1..] == "0" && "0"[1..] == "";
    assert Scanned("1", 0) == Scanned("", 1);
    assert Scanned("20", 0) == Scanned("0", 2) == Scanned("", 20);
  }

  /** Number of pages of `total` rows. */
  function Pages(total: nat, pageSize: nat): nat
    requires pageSize > 0
  {
    (total + pageSize - 1) / pageSize
  }

  /** Page `page` of the rows, over unbounded integers. */
  function PageRows(rows: seq<Row>, page: nat, pageSize: nat): seq<Row>
    requires page >= 1
  {
    Slice(rows, (page - 1) * pageSize, pageSize)
  }

  /** Pages 1 to `n`, one after the other. */
  function FirstPages(rows: seq<Row>, n: nat, pageSize: nat): seq<Row> {
    if n == 0 then [] else FirstPages(rows, n - 1, pageSize) + PageRows(rows, n, pageSize)
  }

  lemma {:induction false} FirstPagesAre(rows: seq<Row>, n: nat, pageSize: nat)
    requires pageSize > 0
    ensures FirstPages(rows, n, pageSize) == if n * pageSize >= |rows| then rows else rows[..n * pageSize]
  {
    if n > 0 {
      FirstPagesAre(rows, n - 1, pageSize);
      assert n * pageSize == (n - 1) * pageSize + pageSize;
    }
  }

  lemma PagesBound(total: nat, pageSize: nat)
    requires pageSize > 0
    ensures Pages(total, pageSize) * pageSize >= total
    ensures Pages(total, pageSize) > 0 ==> (Pages(total, pageSize) - 1) * pageSize < total
  {
    var n := total + pageSize - 1;
    assert n == n / pageSize * pageSize + n % pageSize;
    assert (Pages(total, pageSize) - 1) * pageSize == n / pageSize * pageSize - pageSize;
  }

  lemma MonotoneTimes(x: int, y: int, z: nat)
    requires x <= y
    ensures x * z <= y * z
  {
  }

  /** Exactly the pages 1 to Pages have rows. */
  lemma PageSizes(rows: seq<Row>, page: nat, pageSize: nat)
    requires pageSize > 0 && page >= 1
    ensures |PageRows(rows, page, pageSize)| <= pageSize
    ensures PageRows(rows, page, pageSize) != [] <==> page <= Pages(|rows|, pageSize)
  {
    var n := Pages(|rows|, pageSize);
    PagesBound(|rows|, pageSize);
    if page <= n { MonotoneTimes(page - 1, n - 1, pageSize); } else { MonotoneTimes(n, page - 1, pageSize); }
  }

  /** The pages 1 to Pages, put together, are the selection, without gap or repetition; none of them
      is empty or too long, and the pages after them are empty. */
  lemma PagesCover(rows: seq<Row>, pageSize: nat)
    requires pageSize > 0
    ensures FirstPages(rows, Pages(|rows|, pageSize), pageSize) == rows
    ensures forall p :: p >= 1 ==>
      |PageRows(rows, p, pageSize)| <= pageSize
      && (PageRows(rows, p, pageSize) != [] <==> p <= Pages(|rows|, pageSize))
  {
    PagesBound(|rows|, pageSize);
    FirstPagesAre(rows, Pages(|rows|, pageSize), pageSize);
    forall p | p >= 1 { PageSizes(rows, p, pageSize); }
  }

  // ---- List ----

  datatype Reply = ServerError | Listed(data: seq<Row>, total: nat, page: int, pageSize: int, pages: nat)

  /** The offset as the code computes it. */
  function Offset(page: int, pageSize: int): int {
    Wrap64((page - 1) * pageSize)
  }

  /** The documented answer. */
  function Wanted(rows: seq<Row>, page: int, pageSize: int): Reply
    requires page >= 1 && pageSize >= 1
  {
    Listed(PageRows(rows, page, pageSize), |rows|, page, pageSize, Pages(|rows|, pageSize))
  }

  /** The rows the data query sends when nothing else goes wrong; none if the offset is negative. */
  function Sent(rows: seq<Row>, page: int, pageSize: int): seq<Row>
    requires pageSize >= 1
  {
    if Offset(page, pageSize) < 0 then [] else Slice(rows, Offset(page, pageSize), pageSize)
  }

  /** The answer as the code computes it. An error of the data query that appears only while its
      rows are read is never looked at. */
  function Given(rows: seq<Row>, page: int, pageSize: int): Reply
    requires pageSize >= 1
  {
    Listed(Sent(rows, page, pageSize), |rows|, page, pageSize, Pages(|rows|, pageSize))
  }

  /** What may go wrong: the count query, the sending of the data query, or the connection after so
      many rows of its answer. */
  datatype Failure = NoFailure | CountFails | SendFails | BreaksAfter(n: nat)

  function Cut(rows: seq<Row>, n: nat): seq<Row> {
    if n < |rows| then rows[..n] else rows
  }

  function Broken(cursor: Cursor, failure: Failure): Cursor {
    if failure.BreaksAfter? && failure.n < |cursor.rows| then Cursor(cursor.rows[..failure.n], true) else cursor
  }

  /** The rows.Next loop; the error is not looked at. */
  method Scan(cursor: Cursor) returns (list: seq<Row>)
    ensures list == cursor.rows
  {
    list := [];
    var k := 0;
    while k < |cursor.rows|
      invariant 0 <= k <= |cursor.rows| && list == cursor.rows[..k]
    {
      list := list + [cursor.rows[k]];
      k := k + 1;
    }
  }

  /** List, on a table nobody changes meanwhile. A data query that breaks midway gives a prefix of
      the page as if it were the page. */
  method List(db: Table, f: Filters, page: int, pageSize: int, failure: Failure) returns (reply: Reply)
    requires 1 <= page <= MAX_64 && 1 <= pageSize <= 100
    ensures reply == ServerError <==> !FiltersReadable(db, f) || failure.CountFails? || failure.SendFails?
    ensures FiltersReadable(db, f) && failure.NoFailure? ==> reply == Given(Selection(db, db.order, f), page, pageSize)
    ensures FiltersReadable(db, f) && reply.Listed? ==>
      reply.total == |set k: nat | k < |db.order| && Meets(db, f, db.order[k])|
    ensures FiltersReadable(db, f) && failure.BreaksAfter? ==>
      var rows := Selection(db, db.order, f);
      reply == Listed(Cut(Sent(rows, page, pageSize), failure.n), |rows|, page, pageSize, Pages(|rows|, pageSize))
  {
    var conds, args, argIdx := BuildWhere(db, f);
    if !Bound(db, conds, args) || failure.CountFails? {
      return ServerError;
    }
    SameSelection(db, db.order, conds, args, f);
    SelectionSize(db, db.order, f);
    var total := |Select(db, db.order, conds, args)|;

    var offset := Wrap64((page - 1) * pageSize);
    var dataArgs := args + [Number(pageSize), Number(offset)];
    ExtraArgs(db, conds, args, [Number(pageSize), Number(offset)]);
    if failure.SendFails? {
      return ServerError;
    }
    SameSelection(db, db.order, conds, dataArgs, f);
    var list := Scan(Broken(Page(db, conds, argIdx, argIdx + 1, dataArgs), failure));
    var pages := (total + pageSize - 1) / pageSize;
    reply := Listed(list, total, page, pageSize, pages);
  }

  /** The answer is the documented one exactly when the int64 offset does not wrap around, or wraps
      to a number that is negative or past the end of the selection. */
  lemma ListIsRight(rows: seq<Row>, page: int, pageSize: int)
    requires page >= 1 && 1 <= pageSize && |rows| <= MAX_64
    ensures Given(rows, page, pageSize) == Wanted(rows, page, pageSize)
      <==> (page - 1) * pageSize <= MAX_64 || !(0 <= Offset(page, pageSize) < |rows|)
  {
    var ideal := (page - 1) * pageSize;
    MonotoneTimes(0, page - 1, pageSize);
    if ideal <= MAX_64 {
      InRange(ideal);
    } else if 0 <= Offset(page, pageSize) < |rows| {
      assert |Slice(rows, Offset(page, pageSize), pageSize)| > 0;
    }
  }

  /** If the data query breaks after `n` rows the answer, reported as a success, is the documented
      one exactly when the page ends there anyway, or nothing is sent where nothing should be. */
  lemma BrokenListIsRight(rows: seq<Row>, page: int, pageSize: int, n: nat)
    requires page >= 1 && 1 <= pageSize && |rows| <= MAX_64
    ensures Cut(Sent(rows, page, pageSize), n) == PageRows(rows, page, pageSize)
      <==> if (page - 1) * pageSize <= MAX_64 then n >= |PageRows(rows, page, pageSize)|
           else n == 0 || !(0 <= Offset(page, pageSize) < |rows|)
  {
    var ideal := (page - 1) * pageSize;
    MonotoneTimes(0, page - 1, pageSize);
    if ideal <= MAX_64 {
      InRange(ideal);
    } else if 0 <= Offset(page, pageSize) < |rows| {
      assert |Slice(rows, Offset(page, pageSize), pageSize)| > 0;
    }
  }

  /** The pages that exist are always right. */
  lemma ExistingPagesAreRight(rows: seq<Row>, page: int, pageSize: int)
    requires 1 <= pageSize && 1 <= page <= Pages(|rows|, pageSize) && |rows| <= MAX_64
    ensures Given(rows, page, pageSize) == Wanted(rows, page, pageSize)
  {
    PagesBound(|rows|, pageSize);
    MonotoneTimes(page - 1, Pages(|rows|, pageSize) - 1, pageSize);
    ListIsRight(rows, page, pageSize);
  }

  /** A page far past the end that shows the first page again. */
  lemma WrappedPage(rows: seq<Row>)
    requires rows != []
    ensures var page := 0x4000_0000_0000_0001;
      page <= MAX_64 && Given(rows, page, 20) == Listed(PageRows(rows, 1, 20), |rows|, page, 20, Pages(|rows|, 20))
        && PageRows(rows, 1, 20) != []
  {
    WrapMultiple(0, 5);
  }
}
