/** Rows of a table, and what ORDER BY makes of them. */
module Ordering {

  datatype Option<+T> = None | Some(value: T)

  /** A row: its primary key, the parent its foreign key points to (if any) and its other cells,
      each as the integer that ranks it among the values of its column. */
  datatype Row = Row(pk: nat, parent: Option<nat>, cells: map<string, int>)

  datatype Term = Key(descending: bool) | Column(name: string, descending: bool)

  function ValueOf(row: Row, term: Term): int {
    if term.Key? then row.pk else if term.name in row.cells then row.cells[term.name] else 0
  }

  /** Negative, zero or positive as `a` comes before, ties with or comes after `b`. */
  function Compare(order: seq<Term>, a: Row, b: Row): int {
    if order == [] then 0
    else
      var x, y := ValueOf(a, order[0]), ValueOf(b, order[0]);
      if x == y then Compare(order[1..], a, b) else if (x < y) != order[0].descending then -1 else 1
  }

  predicate Before(order: seq<Term>, a: Row, b: Row) {
    Compare(order, a, b) < 0
  }

  /** The value a row has for a term. */
  ghost predicate HasValue(row: Row, term: Term, value: int) {
    match term
    case Key(_) => value == row.pk
    case Column(name, _) => value == if name in row.cells then row.cells[name] else 0
  }

  /** At their first difference `a` is lower, or higher where the term is descending. */
  ghost predicate DiffersFirstAt(order: seq<Term>, a: Row, b: Row, k: nat) {
    && k < |order|
    && (forall i | 0 <= i < k :: forall x, y | HasValue(a, order[i], x) && HasValue(b, order[i], y) :: x == y)
    && forall x, y | HasValue(a, order[k], x) && HasValue(b, order[k], y) ::
         if order[k].descending then x > y else x < y
  }

  /** ORDER BY compares by the first term that tells two rows apart. */
  lemma {:induction false} BeforeIsLexicographic(order: seq<Term>, a: Row, b: Row)
    ensures Before(order, a, b) <==> exists k: nat :: DiffersFirstAt(order, a, b, k)
  {
    if order != [] {
      var x, y := ValueOf(a, order[0]), ValueOf(b, order[0]);
      assert HasValue(a, order[0], x) && HasValue(b, order[0], y);
      BeforeIsLexicographic(order[1..], a, b);
      if x == y {
        if k: nat :| DiffersFirstAt(order[1..], a, b, k) {
          assert DiffersFirstAt(order, a, b, k + 1);
        }
        if k: nat :| DiffersFirstAt(order, a, b, k) {
          assert k > 0;
          forall i | 0 <= i < k - 1
            ensures forall x, y | HasValue(a, order[1..][i], x) && HasValue(b, order[1..][i], y) :: x == y
          {
            assert order[1..][i] == order[i + 1];
          }
          assert DiffersFirstAt(order[1..], a, b, k - 1);
        }
      } else if Before(order, a, b) {
        assert DiffersFirstAt(order, a, b, 0);
      }
    }
  }

  lemma {:induction false} ComparesOppositely(order: seq<Term>, a: Row, b: Row)
    ensures Compare(order, b, a) == -Compare(order, a, b)
  {
    if order != [] { ComparesOppositely(order[1..], a, b); }
  }

  lemma {:induction false} ComparesTransitively(order: seq<Term>, a: Row, b: Row, c: Row)
    requires Compare(order, a, b) <= 0 && Compare(order, b, c) <= 0
    ensures Compare(order, a, c) <= 0
    ensures Before(order, a, b) || Before(order, b, c) ==> Before(order, a, c)
  {
    if order != [] && ValueOf(a, order[0]) == ValueOf(b, order[0]) && ValueOf(b, order[0]) == ValueOf(c, order[0]) {
      ComparesTransitively(order[1..], a, b, c);
    }
  }

  /** An ordering that names the primary key ties no two rows of a table. */
  lemma {:induction false} KeyBreaksTies(order: seq<Term>, a: Row, b: Row)
    requires exists term | term in order :: term.Key?
    ensures Compare(order, a, b) == 0 ==> a.pk == b.pk
  {
    if !order[0].Key? {
      assert exists term | term in order[1..] :: term.Key?;
      KeyBreaksTies(order[1..], a, b);
    }
  }

  // --- Sorting --------------------------------------------------------------------------------

  ghost predicate Ascending(order: seq<Term>, rows: seq<Row>) {
    forall i, j | 0 <= i < j < |rows| :: Compare(order, rows[i], rows[j]) <= 0
  }

  ghost predicate Distinct(rows: seq<Row>) {
    forall i, j | 0 <= i < j < |rows| :: rows[i] != rows[j]
  }

  ghost predicate NoTies(order: seq<Term>, rows: seq<Row>) {
    forall a, b | a in rows && b in rows && a != b :: Compare(order, a, b) != 0
  }

  /** The rows a query may answer: the same rows, in ascending order. Ties come in any order. */
  ghost predicate Answers(order: seq<Term>, rows: seq<Row>, answer: seq<Row>) {
    multiset(answer) == multiset(rows) && Ascending(order, answer)
  }

  function Insert(order: seq<Term>, row: Row, rows: seq<Row>): seq<Row> {
    if rows == [] || Compare(order, row, rows[0]) <= 0 then [row] + rows else [rows[0]] + Insert(order, row, rows[1..])
  }

  function Sort(order: seq<Term>, rows: seq<Row>): seq<Row> {
    if rows == [] then [] else Insert(order, rows[0], Sort(order, rows[1..]))
  }

  lemma {:induction false} InsertPermutes(order: seq<Term>, row: Row, rows: seq<Row>)
    ensures multiset(Insert(order, row, rows)) == multiset([row] + rows)
  {
    if rows != [] && Compare(order, row, rows[0]) > 0 {
      InsertPermutes(order, row, rows[1..]);
      assert rows == [rows[0]] + rows[1..];
    }
  }

  lemma AscendingAfter(order: seq<Term>, row: Row, rows: seq<Row>)
    requires Ascending(order, rows) && forall other | other in rows :: Compare(order, row, other) <= 0
    ensures Ascending(order, [row] + rows)
  {
    var result := [row] + rows;
    forall i, j | 0 <= i < j < |result| ensures Compare(order, result[i], result[j]) <= 0 {
      assert result[j] == rows[j - 1];
      if i == 0 { assert rows[j - 1] in rows; }
    }
  }

  lemma {:induction false} InsertAscends(order: seq<Term>, row: Row, rows: seq<Row>)
    requires Ascending(order, rows)
    ensures Ascending(order, Insert(order, row, rows))
  {
    if rows == [] {
    } else if Compare(order, row, rows[0]) <= 0 {
      forall other | other in rows ensures Compare(order, row, other) <= 0 {
        var j :| 0 <= j < |rows| && rows[j] == other;
        if j > 0 { ComparesTransitively(order, row, rows[0], rows[j]); }
      }
      AscendingAfter(order, row, rows);
    } else {
      var rest := Insert(order, row, rows[1..]);
      InsertAscends(order, row, rows[1..]);
      InsertPermutes(order, row, rows[1..]);
      SameMembers(rest, [row] + rows[1..]);
      ComparesOppositely(order, row, rows[0]);
      forall other | other in rest ensures Compare(order, rows[0], other) <= 0 {
        assert other in [row] + rows[1..];
        if other != row {
          var j :| 0 <= j < |rows[1..]| && rows[1..][j] == other;
          assert rows[j + 1] == other;
        }
      }
      AscendingAfter(order, rows[0], rest);
    }
  }

  /** Sorting gives one of the possible answers. */
  lemma {:induction false} SortAnswers(order: seq<Term>, rows: seq<Row>)
    ensures Answers(order, rows, Sort(order, rows))
  {
    if rows != [] {
      SortAnswers(order, rows[1..]);
      InsertAscends(order, rows[0], Sort(order, rows[1..]));
      InsertPermutes(order, rows[0], Sort(order, rows[1..]));
      assert rows == [rows[0]] + rows[1..];
    }
  }

  lemma SameMembers(a: seq<Row>, b: seq<Row>)
    requires multiset(a) == multiset(b)
    ensures |a| == |b| && forall row :: row in a <==> row in b
  {
    assert |multiset(a)| == |multiset(b)|;
    forall row ensures row in a <==> row in b {
      assert row in a <==> row in multiset(a);
    }
  }

  lemma {:induction false} DistinctOnce(rows: seq<Row>)
    requires Distinct(rows)
    ensures forall row :: multiset(rows)[row] <= 1
  {
    if rows != [] {
      assert rows == [rows[0]] + rows[1..];
      DistinctOnce(rows[1..]);
      assert rows[0] !in rows[1..];
    }
  }

  lemma OnceDistinct(rows: seq<Row>)
    requires forall row :: multiset(rows)[row] <= 1
    ensures Distinct(rows)
  {
    forall i, j | 0 <= i < j < |rows| ensures rows[i] != rows[j] {
      assert rows == rows[..j] + rows[j..] && rows[i] == rows[..j][i] && rows[j] == rows[j..][0];
      assert rows[i] in multiset(rows[..j]) && rows[j] in multiset(rows[j..]);
      assert multiset(rows)[rows[i]] == multiset(rows[..j])[rows[i]] + multiset(rows[j..])[rows[i]];
    }
  }

  /** Without ties there is only one answer: the physical order of the table does not show. */
  lemma AnswerIsUnique(order: seq<Term>, rows: seq<Row>, a: seq<Row>, b: seq<Row>)
    requires Distinct(rows) && NoTies(order, rows) && Answers(order, rows, a) && Answers(order, rows, b)
    ensures a == b
  {
    DistinctOnce(rows);
    OnceDistinct(a);
    OnceDistinct(b);
    SameMembers(a, rows);
    SameMembers(b, rows);
    AscendingIsUnique(order, a, b);
  }

  lemma {:induction false} AscendingIsUnique(order: seq<Term>, a: seq<Row>, b: seq<Row>)
    requires Distinct(a) && Distinct(b) && NoTies(order, a) && Ascending(order, a) && Ascending(order, b)
    requires |a| == |b| && forall row :: row in a <==> row in b
    ensures a == b
  {
    if a != [] {
      HeadsAgree(order, a, b);
      TailMembers(a);
      TailMembers(b);
      assert NoTies(order, a[1..]) by { assert forall x | x in a[1..] :: x in a; }
      AscendingIsUnique(order, a[1..], b[1..]);
      assert a == [a[0]] + a[1..] && b == [b[0]] + b[1..];
    }
  }

  lemma HeadsAgree(order: seq<Term>, a: seq<Row>, b: seq<Row>)
    requires a != [] && NoTies(order, a) && Ascending(order, a) && Ascending(order, b)
    requires |a| == |b| && forall row :: row in a <==> row in b
    ensures a[0] == b[0]
  {
    assert a[0] in b && b[0] in a;
    var i :| 0 <= i < |a| && a[i] == b[0];
    var j :| 0 <= j < |b| && b[j] == a[0];
    ComparesOppositely(order, a[0], b[0]);
  }

  lemma TailMembers(rows: seq<Row>)
    requires rows != [] && Distinct(rows)
    ensures forall row :: row in rows[1..] <==> row in rows && row != rows[0]
  {
    forall row ensures row in rows[1..] <==> row in rows && row != rows[0] {
      assert row in rows <==> row == rows[0] || row in rows[1..];
      assert rows[0] !in rows[1..];
    }
  }

  // --- Filtering ------------------------------------------------------------------------------

  function Filter(rows: seq<Row>, keep: Row -> bool): (kept: seq<Row>)
    ensures forall row :: row in kept <==> row in rows && keep(row)
  {
    if rows == [] then [] else (if keep(rows[0]) then [rows[0]] else []) + Filter(rows[1..], keep)
  }

  lemma {:induction false} FilterSame(rows: seq<Row>, f: Row -> bool, g: Row -> bool)
    requires forall row | row in rows :: f(row) == g(row)
    ensures Filter(rows, f) == Filter(rows, g)
  {
    if rows != [] { FilterSame(rows[1..], f, g); }
  }

  lemma {:induction false} FilterTwice(rows: seq<Row>, f: Row -> bool, g: Row -> bool, both: Row -> bool)
    requires forall row | row in rows :: both(row) == (f(row) && g(row))
    ensures Filter(Filter(rows, f), g) == Filter(rows, both)
  {
    if rows != [] {
      FilterTwice(rows[1..], f, g, both);
      var rest := Filter(rows[1..], f);
      assert Filter(rows, f) == if f(rows[0]) then [rows[0]] + rest else rest;
      if f(rows[0]) { assert ([rows[0]] + rest)[1..] == rest; }
    }
  }

  lemma {:induction false} FilterInsert(order: seq<Term>, row: Row, rows: seq<Row>, keep: Row -> bool)
    requires Ascending(order, rows)
    ensures Filter(Insert(order, row, rows), keep)
         == if keep(row) then Insert(order, row, Filter(rows, keep)) else Filter(rows, keep)
  {
    if rows == [] {
    } else if Compare(order, row, rows[0]) <= 0 {
      assert ([row] + rows)[1..] == rows;
      var kept := Filter(rows, keep);
      if keep(row) && kept != [] {
        assert kept[0] in rows;
        var k :| 0 <= k < |rows| && rows[k] == kept[0];
        if k > 0 { ComparesTransitively(order, row, rows[0], rows[k]); }
      }
    } else {
      FilterInsert(order, row, rows[1..], keep);
      var rest := Insert(order, row, rows[1..]);
      assert ([rows[0]] + rest)[1..] == rest;
      var kept := Filter(rows[1..], keep);
      if keep(rows[0]) { assert ([rows[0]] + kept)[1..] == kept; }
      else if keep(row) { FilteredAway(order, row, rows, keep); }
    }
  }

  lemma FilteredAway(order: seq<Term>, row: Row, rows: seq<Row>, keep: Row -> bool)
    requires rows != [] && !keep(rows[0])
    ensures Filter(rows, keep) == Filter(rows[1..], keep)
    ensures Insert(order, row, Filter(rows, keep)) == Insert(order, row, Filter(rows[1..], keep))
  {
  }

  lemma {:induction false} FilterSort(order: seq<Term>, rows: seq<Row>, keep: Row -> bool)
    ensures Filter(Sort(order, rows), keep) == Sort(order, Filter(rows, keep))
  {
    if rows != [] {
      FilterSort(order, rows[1..], keep);
      SortAnswers(order, rows[1..]);
      FilterInsert(order, rows[0], Sort(order, rows[1..]), keep);
      var kept := Filter(rows[1..], keep);
      assert Filter(rows, keep) == if keep(rows[0]) then [rows[0]] + kept else kept;
      if keep(rows[0]) { assert ([rows[0]] + kept)[1..] == kept; }
    }
  }

  lemma {:induction false} FilterKeepsDistinct(rows: seq<Row>, keep: Row -> bool)
    requires Distinct(rows)
    ensures Distinct(Filter(rows, keep))
  {
    if rows != [] {
      FilterKeepsDistinct(rows[1..], keep);
      assert rows[0] !in rows[1..];
    }
  }
}
