/** Write scopes, partial bulk writes and imports over nested transactions. */
module BulkWrites {

  datatype Option<+T> = None | Some(value: T)

  type Table = map<nat, nat>

  datatype Detail = Detail(kind: string, field: string, message: string)

  datatype Exception =
    | ModelInvalid(errors: seq<Detail>, summary: Detail)
    | IntegrityError(message: string)
    | DomainError(status: nat, code: string, message: string)
    | NotFound(message: string)
    | HttpError(status: nat, message: string)
    | Unexpected(message: string)

  datatype Outcome = Done(data: nat) | Raised(error: Exception)

  /** What one item does to the table, possibly before failing half-way. */
  datatype Attempt = Attempt(table: Table, outcome: Outcome)

  type Item = Table -> Attempt

  /** _bulk_error: the status and details of a failure that becomes an entry of its own. */
  function BulkError(e: Exception): (r: Option<(nat, seq<Detail>)>)
    ensures r.None? <==> e.Unexpected?
    ensures r.Some? ==> r.value.1 != []
  {
    match e
    case ModelInvalid(errors, summary) => Some((422, if errors == [] then [summary] else errors))
    case IntegrityError(m) => Some((422, [Detail("integrity_error", "", m)]))
    case DomainError(status, code, m) => Some((status, [Detail(code, "", m)]))
    case NotFound(m) => Some((404, [Detail("not_found", "", m)]))
    case HttpError(status, m) => Some((status, [Detail("http_error", "", m)]))
    case Unexpected(_) => None
  }

  // --- Transactions -----------------------------------------------------------------------

  /** A database connection: the rows, and the snapshots nested atomic blocks can go back to. */
  class Connection {
    var rows: Table
    var snapshots: seq<Table>

    constructor (rows: Table)
      ensures this.rows == rows && snapshots == []
    {
      this.rows, snapshots := rows, [];
    }

    method Begin()
      modifies this
      ensures rows == old(rows) && snapshots == old(snapshots) + [old(rows)]
    {
      snapshots := snapshots + [rows];
    }

    method Commit()
      requires snapshots != []
      modifies this
      ensures rows == old(rows) && snapshots == old(snapshots)[..|old(snapshots)| - 1]
    {
      snapshots := snapshots[..|snapshots| - 1];
    }

    method Rollback()
      requires snapshots != []
      modifies this
      ensures rows == old(snapshots)[|old(snapshots)| - 1] && snapshots == old(snapshots)[..|old(snapshots)| - 1]
    {
      rows, snapshots := snapshots[|snapshots| - 1], snapshots[..|snapshots| - 1];
    }

    /** `with transaction.atomic()` around one item: its writes stay exactly when it returns. */
    method Atomically(item: Item) returns (outcome: Outcome)
      modifies this
      ensures outcome == item(old(rows)).outcome && snapshots == old(snapshots)
      ensures rows == Kept(item, old(rows))
    {
      Begin();
      var attempt := item(rows);
      rows, outcome := attempt.table, attempt.outcome;
      if outcome.Raised? {
        Rollback();
      } else {
        Commit();
      }
    }
  }

  function Kept(item: Item, table: Table): Table {
    var a := item(table);
    if a.outcome.Done? then a.table else table
  }

  // --- Which database a write goes to ---------------------------------------------------------

  /** The request's own notes: the database its current write scope writes to. */
  class Request {
    var current: Option<string>
    const operation: Option<string>

    constructor (operation: Option<string>)
      ensures current == None && this.operation == operation
    {
      current, this.operation := None, operation;
    }

    /** database_for_write, `routed` being the queryset's or the router's choice. */
    function Database(routed: string): string
      reads this
    {
      if current.Some? then current.value else if operation.Some? then operation.value else routed
    }
  }

  /** Code run in a write scope: nested scopes of other controllers, and perhaps an exception. */
  datatype Block = Block(routed: string, nested: seq<Block>, raises: bool)

  /** Nested write scopes, exceptions or not, all write where the outermost one does, and each
      leaves the request as it found it. */
  method WriteScope(request: Request, block: Block) returns (aliases: seq<string>, failed: bool)
    modifies request
    ensures request.current == old(request.current)
    ensures aliases != [] && forall a | a in aliases ::
              a == if old(request.current).Some? then old(request.current).value
                   else if request.operation.Some? then request.operation.value
                   else block.routed
    decreases block
  {
    var alias := request.Database(block.routed);
    var previous := request.current;
    request.current := Some(alias);
    aliases, failed := [alias], block.raises;
    var i := 0;
    while i < |block.nested| && !failed
      invariant 0 <= i <= |block.nested|
      invariant request.current == Some(alias)
      invariant aliases != [] && forall a | a in aliases :: a == alias
    {
      var inner, raised := WriteScope(request, block.nested[i]);
      aliases, failed := aliases + inner, raised;
      i := i + 1;
    }
    request.current := previous;
  }

  // --- Partial bulk writes ----------------------------------------------------------------------

  datatype Entry = Success(index: nat, status: nat, data: nat) | Failure(index: nat, status: nat, errors: seq<Detail>)

  /** The table after every item that succeeded at its turn, and nothing of the others. */
  function Surviving(items: seq<Item>, table: Table): Table {
    if items == [] then table else Surviving(items[1..], Kept(items[0], table))
  }

  /** The table item `i` runs on. */
  function Before(items: seq<Item>, i: nat, table: Table): Table
    requires i <= |items|
  {
    Surviving(items[..i], table)
  }

  ghost predicate Mappable(items: seq<Item>, i: nat, table: Table)
    requires i < |items|
  {
    var o := items[i](Before(items, i, table)).outcome;
    o.Done? || BulkError(o.error).Some?
  }

  ghost predicate Reports(items: seq<Item>, i: nat, table: Table, status: nat, entry: Entry)
    requires i < |items|
  {
    match items[i](Before(items, i, table)).outcome
    case Done(data) => entry == Success(i, status, data)
    case Raised(e) => BulkError(e).Some? && entry == Failure(i, BulkError(e).value.0, BulkError(e).value.1)
  }

  function Failures(entries: seq<Entry>): nat {
    if entries == [] then 0 else Failures(entries[..|entries| - 1]) + (if entries[|entries| - 1].Failure? then 1 else 0)
  }

  lemma {:induction false} SurvivingSnoc(items: seq<Item>, item: Item, table: Table)
    ensures Surviving(items + [item], table) == Kept(item, Surviving(items, table))
    decreases |items|
  {
    if items == [] {
      assert items + [item] == [item] && [item][1..] == [];
    } else {
      SurvivingSnoc(items[1..], item, Kept(items[0], table));
      assert (items + [item])[1..] == items[1..] + [item];
    }
  }

  /** What a failed item is reported with: what the failure says of itself, a validation error or a broken
      constraint counting as unprocessable and a missing object as not found. */
  lemma FailuresReportThemselves(items: seq<Item>, i: nat, table: Table, status: nat, entry: Entry)
    requires i < |items| && Reports(items, i, table, status, entry)
    requires items[i](Before(items, i, table)).outcome.Raised?
    ensures entry.Failure? && entry.index == i && entry.errors != []
    ensures match items[i](Before(items, i, table)).outcome.error
      case ModelInvalid(errors, summary) =>
        entry.status == 422 && entry.errors == if |errors| > 0 then errors else [summary]
      case IntegrityError(m) => entry.status == 422 && entry.errors == [Detail("integrity_error", "", m)]
      case DomainError(own, code, m) => entry.status == own && entry.errors == [Detail(code, "", m)]
      case NotFound(m) => entry.status == 404 && entry.errors == [Detail("not_found", "", m)]
      case HttpError(own, m) => entry.status == own && entry.errors == [Detail("http_error", "", m)]
      case Unexpected(_) => false
  {
  }

  /** An item that was done is reported with the status of the request and with what it returned. */
  lemma SuccessesReportThemselves(items: seq<Item>, i: nat, table: Table, status: nat, entry: Entry)
    requires i < |items| && items[i](Before(items, i, table)).outcome.Done?
    ensures Mappable(items, i, table)
    ensures Reports(items, i, table, status, entry) <==>
      entry == Success(i, status, items[i](Before(items, i, table)).outcome.data)
  {
  }

  ghost function FailureIndices(entries: seq<Entry>): set<nat> {
    set i | 0 <= i < |entries| && entries[i].Failure?
  }

  lemma {:induction false} FailuresAreCounted(entries: seq<Entry>)
    ensures Failures(entries) == |FailureIndices(entries)|
  {
    if entries != [] {
      var before, n := entries[..|entries| - 1], |entries| - 1;
      FailuresAreCounted(before);
      assert FailureIndices(entries) == FailureIndices(before) + if entries[n].Failure? then {n} else {};
    }
  }

  /** One item in its savepoint, and the entry it becomes, if it may become one. */
  method BulkItem(db: Connection, items: seq<Item>, i: nat, status: nat, ghost start: Table)
    returns (entry: Option<Entry>)
    requires i < |items| && db.rows == Before(items, i, start)
    modifies db
    ensures db.snapshots == old(db.snapshots) && db.rows == Before(items, i + 1, start)
    ensures entry.Some? <==> Mappable(items, i, start)
    ensures entry.Some? ==> Reports(items, i, start, status, entry.value)
  {
    SurvivingSnoc(items[..i], items[i], start);
    assert items[..i + 1] == items[..i] + [items[i]];
    var outcome := db.Atomically(items[i]);
    match outcome {
      case Done(data) =>
        return Some(Success(i, status, data));
      case Raised(e) =>
        var mapped := BulkError(e);
        return if mapped.None? then None else Some(Failure(i, mapped.value.0, mapped.value.1));
    }
  }

  /** _bulk_create_partial: one savepoint an item; a failure that has no status of its own aborts
      the request and leaves the table as it was. */
  method BulkPartial(db: Connection, request: Request, routed: string, items: seq<Item>, status: nat)
    returns (results: Option<seq<Entry>>, failed: nat)
    modifies db, request
    ensures db.snapshots == old(db.snapshots) && request.current == old(request.current)
    ensures results.Some? <==> forall i | 0 <= i < |items| :: Mappable(items, i, old(db.rows))
    ensures results.None? ==> db.rows == old(db.rows)
    ensures results.Some? ==>
      && db.rows == Surviving(items, old(db.rows))
      && |results.value| == |items|
      && (forall i | 0 <= i < |items| :: Reports(items, i, old(db.rows), status, results.value[i]))
      && failed == Failures(results.value) == |FailureIndices(results.value)|
  {
    var previous := request.current;
    request.current := Some(request.Database(routed));
    db.Begin();
    var entries: seq<Entry>, i := [], 0;
    failed := 0;
    assert items[..0] == [];
    while i < |items|
      invariant 0 <= i <= |items| && |entries| == i && failed == Failures(entries)
      invariant db.snapshots == old(db.snapshots) + [old(db.rows)] && db.rows == Before(items, i, old(db.rows))
      invariant forall j | 0 <= j < i ::
        Mappable(items, j, old(db.rows)) && Reports(items, j, old(db.rows), status, entries[j])
    {
      var entry := BulkItem(db, items, i, status, old(db.rows));
      if entry.None? {
        db.Rollback();
        request.current := previous;
        return None, failed;
      }
      failed := failed + if entry.value.Failure? then 1 else 0;
      assert (entries + [entry.value])[..i] == entries;
      entries := entries + [entry.value];
      i := i + 1;
    }
    assert items[..i] == items;
    db.Commit();
    request.current := previous;
    FailuresAreCounted(entries);
    return Some(entries), failed;
  }

  // The successful items alone, in order, are a request that succeeds completely -------------

  function Winners(items: seq<Item>, table: Table): seq<Item> {
    if items == [] then []
    else if items[0](table).outcome.Done? then [items[0]] + Winners(items[1..], items[0](table).table)
    else Winners(items[1..], table)
  }

  ghost predicate AllSucceed(items: seq<Item>, table: Table) {
    items == [] || (items[0](table).outcome.Done? && AllSucceed(items[1..], items[0](table).table))
  }

  /** A partial request does to the table exactly what the request made of its successful items
      alone would have done, and that one has no failure. */
  lemma {:induction false} PartialIsItsSuccessfulPart(items: seq<Item>, table: Table)
    ensures AllSucceed(Winners(items, table), table)
    ensures Surviving(items, table) == Surviving(Winners(items, table), table)
    ensures |Winners(items, table)| <= |items|
    decreases |items|
  {
    if items != [] {
      PartialIsItsSuccessfulPart(items[1..], Kept(items[0], table));
      var rest := Winners(items[1..], Kept(items[0], table));
      if items[0](table).outcome.Done? {
        assert ([items[0]] + rest)[1..] == rest;
      }
    }
  }

  // --- Bulk updates -----------------------------------------------------------------------------

  predicate Duplicates(keys: seq<nat>) {
    exists i, j :: 0 <= i < j < |keys| && keys[i] == keys[j]
  }

  const MISSING := NotFound("not found")

  /** An update of one key: an unknown one is an entry of its own and changes nothing. */
  function Update(key: nat, change: (nat, Table) -> Attempt): Item {
    (table: Table) => if key in table then change(key, table) else Attempt(table, Raised(MISSING))
  }

  function Updates(keys: seq<nat>, change: (nat, Table) -> Attempt): seq<Item> {
    seq(|keys|, i requires 0 <= i < |keys| => Update(keys[i], change))
  }

  /** The entry of a key is what its change reports on the rows as they are by then, or that it was not found. */
  lemma UpdatesReportTheirKeys(keys: seq<nat>, change: (nat, Table) -> Attempt, i: nat, table: Table, entry: Entry)
    requires i < |keys| && Reports(Updates(keys, change), i, table, 200, entry)
    ensures var rows := Before(Updates(keys, change), i, table);
      if keys[i] !in rows then entry == Failure(i, 404, [Detail("not_found", "", "not found")])
      else match change(keys[i], rows).outcome
           case Done(data) => entry == Success(i, 200, data)
           case Raised(_) => entry.Failure? && entry.index == i
  {
  }

  /** A key that is not found is always reported as that, and fails nothing else. */
  lemma UnknownKeysAreReported(keys: seq<nat>, change: (nat, Table) -> Attempt, i: nat, table: Table)
    requires i < |keys| && keys[i] !in Before(Updates(keys, change), i, table)
    ensures Mappable(Updates(keys, change), i, table)
    ensures Reports(Updates(keys, change), i, table, 200, Failure(i, 404, [Detail("not_found", "", "not found")]))
  {
  }

  /** An unknown key, and a change that fails, leave the rows as they were. */
  lemma FailedUpdatesChangeNothing(keys: seq<nat>, change: (nat, Table) -> Attempt, i: nat, table: Table)
    requires i < |keys|
    ensures var rows, next := Before(Updates(keys, change), i, table), Before(Updates(keys, change), i + 1, table);
      next == if keys[i] in rows && change(keys[i], rows).outcome.Done? then change(keys[i], rows).table else rows
  {
    var items := Updates(keys, change);
    assert items[..i + 1] == items[..i] + [items[i]];
    SurvivingSnoc(items[..i], items[i], table);
  }

  /** _bulk_update_partial: repeated keys are refused before anything is written. */
  method BulkUpdatePartial(db: Connection, request: Request, routed: string, keys: seq<nat>,
                           change: (nat, Table) -> Attempt)
    returns (results: Option<seq<Entry>>, failed: nat)
    modifies db, request
    ensures db.snapshots == old(db.snapshots) && request.current == old(request.current)
    ensures results.None? ==> db.rows == old(db.rows)
    ensures (exists i, j :: 0 <= i < j < |keys| && keys[i] == keys[j]) ==> results.None?
    ensures results.Some?
      <==> !Duplicates(keys) && forall i | 0 <= i < |keys| :: Mappable(Updates(keys, change), i, old(db.rows))
    ensures results.Some? ==>
      && db.rows == Surviving(Updates(keys, change), old(db.rows)) && |results.value| == |keys|
      && failed == Failures(results.value)
      && forall i | 0 <= i < |keys| :: Reports(Updates(keys, change), i, old(db.rows), 200, results.value[i])
  {
    if Duplicates(keys) {
      return None, 0;
    }
    results, failed := BulkPartial(db, request, routed, Updates(keys, change), 200);
  }

  // --- Imports ------------------------------------------------------------------------------------

  datatype RowOutcome = Created | Invalid(errors: seq<Detail>) | Broken

  /** A row of a file, without a savepoint of its own: what a rejected row wrote stays until the
      import ends. */
  datatype RowAttempt = RowAttempt(table: Table, outcome: RowOutcome)

  type Row = Table -> RowAttempt

  datatype Progress = Progress(table: Table, created: nat, errors: seq<Detail>, seen: nat, broken: bool)

  /** The loop: it stops at an exception it does not know, or once there are enough errors. */
  function Walk(rows: seq<Row>, p: Progress, cap: int): Progress
    decreases |rows|
  {
    if rows == [] then p
    else
      var a := rows[0](p.table);
      var p' := p.(table := a.table, seen := p.seen + 1);
      match a.outcome
      case Broken => p'.(broken := true)
      case Created => var q := p'.(created := p.created + 1); if |q.errors| >= cap then q else Walk(rows[1..], q, cap)
      case Invalid(errors) =>
        var q := p'.(errors := p.errors + errors);
        if |q.errors| >= cap then q else Walk(rows[1..], q, cap)
  }

  function Begun(table: Table): Progress {
    Progress(table, 0, [], 0, false)
  }

  /** A Python slice from the start; a negative bound counts from the end. */
  function Prefix(errors: seq<Detail>, cap: int): seq<Detail> {
    if cap >= |errors| then errors
    else if cap >= 0 then errors[..cap]
    else if -cap <= |errors| then errors[..|errors| + cap]
    else []
  }

  /** At most `cap` errors are shown, the first ones; a cap below zero leaves that many out. */
  lemma PrefixShowsTheFirst(errors: seq<Detail>, cap: int)
    ensures Prefix(errors, cap) <= errors
    ensures var shown := if cap < 0 then |errors| + cap else cap;
      |Prefix(errors, cap)| == if shown < 0 then 0 else if shown > |errors| then |errors| else shown
  {
  }

  datatype ImportResult = Imported(created: nat) | Rejected(errors: seq<Detail>) | Failed

  method Import(db: Connection, request: Request, routed: string, rows: seq<Row>, dryRun: bool, cap: int)
    returns (result: ImportResult)
    modifies db, request
    ensures db.snapshots == old(db.snapshots) && request.current == old(request.current)
    ensures var p := Walk(rows, Begun(old(db.rows)), cap);
      && result == (if p.broken then Failed
                    else if p.errors != [] then Rejected(Prefix(p.errors, cap))
                    else Imported(p.created))
      && db.rows == if p.broken || p.errors != [] || dryRun then old(db.rows) else p.table
  {
    var previous := request.current;
    request.current := Some(request.Database(routed));
    db.Begin();
    var errors: seq<Detail>, created, i, enough := [], 0, 0, false;
    ghost var whole := Walk(rows, Begun(db.rows), cap);
    assert rows[0..] == rows;
    while i < |rows| && !enough
      invariant 0 <= i <= |rows| && db.snapshots == old(db.snapshots) + [old(db.rows)]
      invariant request.current.Some?
      invariant var here := Progress(db.rows, created, errors, i, false);
        whole == if enough then here else Walk(rows[i..], here, cap)
    {
      assert rows[i..][0] == rows[i] && rows[i..][1..] == rows[i + 1..];
      var attempt := rows[i](db.rows);
      db.rows := attempt.table;
      match attempt.outcome {
        case Broken =>
          db.Rollback();
          request.current := previous;
          return Failed;
        case Created =>
          created := created + 1;
        case Invalid(found) =>
          errors := errors + found;
      }
      i := i + 1;
      enough := |errors| >= cap;
    }
    assert i == |rows| ==> rows[i..] == [];
    if errors != [] || dryRun {
      db.Rollback();
    } else {
      db.Commit();
    }
    request.current := previous;
    return if errors != [] then Rejected(Prefix(errors, cap)) else Imported(created);
  }

  /** The table after the first `n` rows, and the errors they gave, whatever the cap. */
  ghost function TableAfter(rows: seq<Row>, n: nat, table: Table): Table
    requires n <= |rows|
  {
    if n == 0 then table else rows[n - 1](TableAfter(rows, n - 1, table)).table
  }

  ghost function ErrorsOf(rows: seq<Row>, n: nat, table: Table): seq<Detail>
    requires n <= |rows|
  {
    if n == 0 then []
    else
      var last := rows[n - 1](TableAfter(rows, n - 1, table)).outcome;
      ErrorsOf(rows, n - 1, table) + if last.Invalid? then last.errors else []
  }

  ghost function CreatedBy(rows: seq<Row>, n: nat, table: Table): nat
    requires n <= |rows|
  {
    if n == 0 then 0
    else
      CreatedBy(rows, n - 1, table) + if rows[n - 1](TableAfter(rows, n - 1, table)).outcome.Created? then 1 else 0
  }

  ghost predicate IsBroken(rows: seq<Row>, i: nat, table: Table)
    requires i < |rows|
  {
    rows[i](TableAfter(rows, i, table)).outcome.Broken?
  }

  /** The walk has read `n` rows, none of them broken, and has gathered what they wrote and said. */
  ghost predicate Gathered(rows: seq<Row>, n: nat, table: Table, p: Progress)
    requires n <= |rows|
  {
    && p == Progress(TableAfter(rows, n, table), CreatedBy(rows, n, table), ErrorsOf(rows, n, table), n, false)
    && forall i | 0 <= i < n :: !IsBroken(rows, i, table)
  }

  lemma GathersOneMore(rows: seq<Row>, n: nat, table: Table, p: Progress)
    requires n < |rows| && Gathered(rows, n, table, p) && !IsBroken(rows, n, table)
    ensures Gathered(rows, n + 1, table, Read(p, rows[n](p.table)))
  {
  }

  /** `q` is what is left of a walk that has read its last row: `n` rows at least, none broken but perhaps the last,
      too few errors before it, and enough after it unless the file has ended. */
  ghost predicate StopsRight(rows: seq<Row>, n: nat, table: Table, q: Progress, cap: int) {
    && n <= q.seen <= |rows|
    && (q.broken ==> n < q.seen && IsBroken(rows, q.seen - 1, table))
    && (!q.broken ==> Gathered(rows, q.seen, table, q))
    && (forall i | 0 < i < q.seen :: |ErrorsOf(rows, i, table)| < cap)
    && (!q.broken && q.seen < |rows| ==> |q.errors| >= cap)
  }

  /** What the walk has after one more row. */
  ghost function Read(p: Progress, a: RowAttempt): Progress {
    Progress(a.table, p.created + (if a.outcome.Created? then 1 else 0),
             p.errors + (if a.outcome.Invalid? then a.outcome.errors else []), p.seen + 1, false)
  }

  lemma WalkReads(rows: seq<Row>, p: Progress, cap: int)
    requires rows != [] && !p.broken && !rows[0](p.table).outcome.Broken?
    ensures var q := Read(p, rows[0](p.table));
      Walk(rows, p, cap) == if |q.errors| >= cap then q else Walk(rows[1..], q, cap)
  {
    assert p.errors + [] == p.errors;
  }

  /** An import reads rows until one is broken, the file ends or there are `cap` errors, and has then created and
      gathered exactly what those rows created and said. */
  lemma {:induction false} WalkStopsAtTheCap(rows: seq<Row>, n: nat, table: Table, p: Progress, cap: int)
    requires n <= |rows| && Gathered(rows, n, table, p)
    requires forall i | 0 < i <= n :: |ErrorsOf(rows, i, table)| < cap
    ensures StopsRight(rows, n, table, Walk(rows[n..], p, cap), cap)
    decreases |rows| - n
  {
    if n < |rows| {
      var left := rows[n..];
      assert left[0] == rows[n] && left[1..] == rows[n + 1..];
      if IsBroken(rows, n, table) {
        StopsAtBroken(rows, n, table, p, cap);
      } else {
        var q := Read(p, rows[n](p.table));
        GathersOneMore(rows, n, table, p);
        WalkReads(left, p, cap);
        if |q.errors| >= cap {
          StopsWithEnough(rows, n, table, q, cap);
        } else {
          WalkStopsAtTheCap(rows, n + 1, table, q, cap);
          StopsRightEarlier(rows, n, table, Walk(rows[n + 1..], q, cap), cap);
        }
      }
    }
  }

  lemma StopsRightEarlier(rows: seq<Row>, n: nat, table: Table, q: Progress, cap: int)
    requires StopsRight(rows, n + 1, table, q, cap)
    ensures StopsRight(rows, n, table, q, cap)
  {
  }

  lemma StopsAtBroken(rows: seq<Row>, n: nat, table: Table, p: Progress, cap: int)
    requires n < |rows| && Gathered(rows, n, table, p) && IsBroken(rows, n, table)
    requires forall i | 0 < i <= n :: |ErrorsOf(rows, i, table)| < cap
    ensures StopsRight(rows, n, table, Walk(rows[n..], p, cap), cap)
  {
    assert rows[n..][0] == rows[n];
  }

  lemma StopsWithEnough(rows: seq<Row>, n: nat, table: Table, q: Progress, cap: int)
    requires n < |rows| && Gathered(rows, n + 1, table, q) && |q.errors| >= cap
    requires forall i | 0 < i <= n :: |ErrorsOf(rows, i, table)| < cap
    ensures StopsRight(rows, n, table, q, cap)
  {
  }

  /** Row `i` is reached and writes its object, given that the rows before it did. */
  ghost predicate EveryRowIsCreated(rows: seq<Row>, table: Table)
    decreases |rows|
  {
    rows == [] || (rows[0](table).outcome.Created? && EveryRowIsCreated(rows[1..], rows[0](table).table))
  }

  /** Some row that the loop reaches is rejected without a single error to report. */
  ghost predicate SilentRejection(rows: seq<Row>, table: Table, cap: int)
    decreases |rows|
  {
    rows != [] &&
    var a := rows[0](table);
    || a.outcome == Invalid([])
    || (a.outcome.Created? && cap > 0 && SilentRejection(rows[1..], a.table, cap))
  }

  /** An import that reports success and commits has created every row of the file exactly when
      no row was rejected without an error and the error cap is positive (or the file has no
      second row): otherwise it commits a part of the file. */
  lemma ImportIsAllOrNothing(rows: seq<Row>, table: Table, cap: int)
    requires var p := Walk(rows, Begun(table), cap); !p.broken && p.errors == []
    ensures EveryRowIsCreated(rows, table) && Walk(rows, Begun(table), cap).created == |rows| <==>
            (cap > 0 || |rows| <= 1) && !SilentRejection(rows, table, cap)
  {
    WalkWithoutErrors(rows, Begun(table), cap);
  }

  lemma {:induction false} WalkWithoutErrors(rows: seq<Row>, p: Progress, cap: int)
    requires var q := Walk(rows, p, cap); !q.broken && q.errors == []
    requires p.errors == []
    ensures var q := Walk(rows, p, cap);
      && (EveryRowIsCreated(rows, p.table) && q.created == p.created + |rows| <==>
            (cap > 0 || |rows| <= 1) && !SilentRejection(rows, p.table, cap))
    decreases |rows|
  {
    if rows != [] {
      var a := rows[0](p.table);
      var next := p.(table := a.table, seen := p.seen + 1);
      match a.outcome
      case Created =>
        if cap > 0 { WalkWithoutErrors(rows[1..], next.(created := p.created + 1), cap); }
      case Invalid(errors) =>
        assert p.errors + errors == errors;
        ErrorsAreKept(rows[1..], next.(errors := errors), cap);
      case Broken =>
    }
  }

  lemma {:induction false} ErrorsAreKept(rows: seq<Row>, p: Progress, cap: int)
    ensures p.errors <= Walk(rows, p, cap).errors
    decreases |rows|
  {
    if rows != [] {
      var a := rows[0](p.table);
      var next := p.(table := a.table, seen := p.seen + 1);
      match a.outcome
      case Created => ErrorsAreKept(rows[1..], next.(created := p.created + 1), cap);
      case Invalid(errors) => ErrorsAreKept(rows[1..], next.(errors := p.errors + errors), cap);
      case Broken =>
    }
  }

  /** One good row and one rejected for no stated reason: the import reports one row created,
      and keeps what the rejected row wrote. */
  lemma SilentRejectionCommits(cap: int)
    requires cap > 0
    ensures var good: Row := (t: Table) => RowAttempt(t[1 := 1], Created);
      var odd: Row := (t: Table) => RowAttempt(t[2 := 2], Invalid([]));
      Walk([good, odd], Begun(map[]), cap) == Progress(map[1 := 1, 2 := 2], 1, [], 2, false)
  {
    var good: Row := (t: Table) => RowAttempt(t[1 := 1], Created);
    var odd: Row := (t: Table) => RowAttempt(t[2 := 2], Invalid([]));
    assert [good, odd][1..] == [odd] && [odd][1..] == [];
    var p := Progress(map[1 := 1], 1, [], 1, false);
    assert Walk([odd], p, cap) == Walk([], Progress(map[1 := 1, 2 := 2], 1, [], 2, false), cap);
    assert Walk([good, odd], Begun(map[]), cap) == Walk([odd], p, cap);
  }
}
