/** Keeping the first rows of a to-many relation for each parent: the window ranking and the
    correlated subquery that stands in for it. */
module RelationCaps {
  import opened Ordering

  /** ROW_NUMBER() OVER (PARTITION BY parent ORDER BY order): rows without a parent share a
      partition. */
  function Rank(order: seq<Term>, rows: seq<Row>, row: Row): nat {
    1 + |Filter(rows, (other: Row) => other.parent == row.parent && Before(order, other, row))|
  }

  function WindowCap(order: seq<Term>, rows: seq<Row>, limit: nat): seq<Row> {
    Sort(order, Filter(rows, (row: Row) => Rank(order, rows, row) <= limit))
  }

  function Take(rows: seq<Row>, limit: nat): seq<Row> {
    if |rows| <= limit then rows else rows[..limit]
  }

  /** The subquery of one outer row: `parent = NULL` is never true. */
  function Siblings(order: seq<Term>, rows: seq<Row>, parent: Option<nat>, limit: nat): seq<Row> {
    Take(Sort(order, Filter(rows, (other: Row) => parent.Some? && other.parent == parent)), limit)
  }

  predicate HasKey(rows: seq<Row>, pk: nat) {
    exists row :: row in rows && row.pk == pk
  }

  function SubqueryCap(order: seq<Term>, rows: seq<Row>, limit: nat): seq<Row> {
    Sort(order, Filter(rows, (row: Row) => HasKey(Siblings(order, rows, row.parent, limit), row.pk)))
  }

  function Children(rows: seq<Row>, parent: Option<nat>): seq<Row> {
    Filter(rows, (row: Row) => row.parent == parent)
  }

  ghost predicate Table(rows: seq<Row>) {
    forall i, j | 0 <= i < j < |rows| :: rows[i].pk != rows[j].pk
  }

  /** No two rows of a parent tie. */
  ghost predicate Ranked(order: seq<Term>, rows: seq<Row>) {
    forall a, b | a in rows && b in rows && a != b && a.parent == b.parent :: Compare(order, a, b) != 0
  }

  // --- Ranks are positions --------------------------------------------------------------------

  lemma {:induction false} EarlierRows(order: seq<Term>, rows: seq<Row>, i: nat, row: Row)
    requires Ascending(order, rows) && i <= |rows|
    requires forall k | 0 <= k < |rows| :: Before(order, rows[k], row) <==> k < i
    ensures |Filter(rows, (other: Row) => Before(order, other, row))| == i
  {
    if rows != [] {
      var rest := rows[1..];
      forall k | 0 <= k < |rest| ensures Before(order, rest[k], row) <==> k < i - 1 {
        assert rest[k] == rows[k + 1];
      }
      if i > 0 {
        EarlierRows(order, rest, i - 1, row);
      } else {
        EarlierRows(order, rest, 0, row);
      }
    }
  }

  /** A row's rank is its place among the sorted rows of its parent. */
  lemma RankIsPlace(order: seq<Term>, rows: seq<Row>, parent: Option<nat>, i: nat)
    requires Table(rows) && Ranked(order, rows)
    requires i < |Sort(order, Children(rows, parent))|
    ensures Rank(order, rows, Sort(order, Children(rows, parent))[i]) == i + 1
  {
    var children := Children(rows, parent);
    var sorted := Sort(order, children);
    var row := sorted[i];
    SortedChildren(order, rows, parent);
    forall k | 0 <= k < |sorted| ensures Before(order, sorted[k], row) <==> k < i {
      ComparesOppositely(order, sorted[k], row);
      if k != i { assert sorted[k] != row; }
      if k == i { ComparesOppositely(order, row, row); }
    }
    EarlierRows(order, sorted, i, row);
    var before := (other: Row) => Before(order, other, row);
    FilterSort(order, children, before);
    SortAnswers(order, Filter(children, before));
    SameMembers(Sort(order, Filter(children, before)), Filter(children, before));
    FilterTwice(rows, (other: Row) => other.parent == parent, before,
                (other: Row) => other.parent == row.parent && Before(order, other, row));
  }

  lemma SortedChildren(order: seq<Term>, rows: seq<Row>, parent: Option<nat>)
    requires Table(rows) && Ranked(order, rows)
    ensures var sorted := Sort(order, Children(rows, parent));
      && Ascending(order, sorted) && Distinct(sorted) && NoTies(order, sorted)
      && forall row :: row in sorted <==> row in rows && row.parent == parent
  {
    var children := Children(rows, parent);
    FilterKeepsDistinct(rows, (row: Row) => row.parent == parent);
    SortAnswers(order, children);
    SameMembers(Sort(order, children), children);
    DistinctOnce(children);
    OnceDistinct(Sort(order, children));
  }

  lemma {:induction false} FilterPrefix(rows: seq<Row>, keep: Row -> bool, limit: nat)
    requires forall i | 0 <= i < |rows| :: keep(rows[i]) <==> i < limit
    ensures Filter(rows, keep) == Take(rows, limit)
  {
    if rows != [] {
      var rest := rows[1..];
      forall i | 0 <= i < |rest| ensures keep(rest[i]) <==> i < limit - 1 {
        assert rest[i] == rows[i + 1];
      }
      if limit > 0 {
        FilterPrefix(rest, keep, limit - 1);
      } else {
        FilterPrefix(rest, keep, 0);
      }
    }
  }

  // --- Both caps keep the first rows of each parent ----------------------------------------------

  lemma SwapFilters(order: seq<Term>, rows: seq<Row>, keep: Row -> bool, parent: Option<nat>)
    ensures Children(Sort(order, Filter(rows, keep)), parent) == Filter(Sort(order, Children(rows, parent)), keep)
  {
    var child := (row: Row) => row.parent == parent;
    FilterSort(order, Filter(rows, keep), child);
    FilterSort(order, Children(rows, parent), keep);
    FilterTwice(rows, keep, child, (row: Row) => keep(row) && child(row));
    FilterTwice(rows, child, keep, (row: Row) => keep(row) && child(row));
  }

  lemma WindowKeepsFirstRows(order: seq<Term>, rows: seq<Row>, limit: nat, parent: Option<nat>)
    requires Table(rows) && Ranked(order, rows)
    ensures Children(WindowCap(order, rows, limit), parent) == Take(Sort(order, Children(rows, parent)), limit)
  {
    var keep := (row: Row) => Rank(order, rows, row) <= limit;
    SwapFilters(order, rows, keep, parent);
    var sorted := Sort(order, Children(rows, parent));
    forall i | 0 <= i < |sorted| ensures keep(sorted[i]) <==> i < limit {
      RankIsPlace(order, rows, parent, i);
    }
    FilterPrefix(sorted, keep, limit);
  }

  lemma KeptKeysAreFirst(order: seq<Term>, rows: seq<Row>, limit: nat, parent: Option<nat>, i: nat)
    requires Table(rows) && Ranked(order, rows) && parent.Some?
    requires i < |Sort(order, Children(rows, parent))|
    ensures HasKey(Siblings(order, rows, parent, limit), Sort(order, Children(rows, parent))[i].pk) <==> i < limit
  {
    var sorted := Sort(order, Children(rows, parent));
    FilterSame(rows, (other: Row) => parent.Some? && other.parent == parent, (row: Row) => row.parent == parent);
    SortedChildren(order, rows, parent);
    var first := Siblings(order, rows, parent, limit);
    assert first == Take(sorted, limit);
    if i < limit {
      assert first[i] == sorted[i] && first[i] in first;
    } else {
      assert sorted[i] in sorted;
      forall row | row in first ensures row.pk != sorted[i].pk {
        var j :| 0 <= j < |first| && first[j] == row;
        assert sorted[j] in sorted && sorted[j] != sorted[i];
        OneRowPerKey(rows, sorted[j], sorted[i]);
      }
    }
  }

  /** Rows without a parent are dropped, whatever the limit. */
  lemma SubqueryKeepsFirstRows(order: seq<Term>, rows: seq<Row>, limit: nat, parent: Option<nat>)
    requires Table(rows) && Ranked(order, rows)
    ensures Children(SubqueryCap(order, rows, limit), parent)
         == if parent.None? then [] else Take(Sort(order, Children(rows, parent)), limit)
  {
    var keep := (row: Row) => HasKey(Siblings(order, rows, row.parent, limit), row.pk);
    SwapFilters(order, rows, keep, parent);
    var sorted := Sort(order, Children(rows, parent));
    SortedChildren(order, rows, parent);
    var kept := if parent.Some? then limit else 0;
    forall i | 0 <= i < |sorted| ensures keep(sorted[i]) <==> i < kept {
      assert sorted[i] in sorted;
      if parent.Some? {
        KeptKeysAreFirst(order, rows, limit, parent, i);
      } else {
        NothingKept(order, rows, limit, sorted[i].pk);
      }
    }
    FilterPrefix(sorted, keep, kept);
  }

  lemma NothingKept(order: seq<Term>, rows: seq<Row>, limit: nat, pk: nat)
    ensures !HasKey(Siblings(order, rows, None, limit), pk)
  {
    var none: Option<nat> := None;
    var kept := Filter(rows, (other: Row) => none.Some? && other.parent == none);
    assert forall row :: row !in kept;
    HasMember(kept);
  }

  lemma HasMember(rows: seq<Row>)
    ensures rows == [] || exists row :: row in rows
  {
    if rows != [] { assert rows[0] in rows; }
  }

  lemma OneRowPerKey(rows: seq<Row>, a: Row, b: Row)
    requires Table(rows) && a in rows && b in rows
    ensures a.pk == b.pk ==> a == b
  {
    var i, j :| 0 <= i < |rows| && 0 <= j < |rows| && rows[i] == a && rows[j] == b;
  }

  /** The two caps are the same query exactly when every row has a parent or nothing is kept. */
  lemma CapsAgreeExactly(order: seq<Term>, rows: seq<Row>, limit: nat)
    requires Table(rows) && Ranked(order, rows)
    ensures WindowCap(order, rows, limit) == SubqueryCap(order, rows, limit)
       <==> limit == 0 || forall row | row in rows :: row.parent.Some?
  {
    var window, subquery := WindowCap(order, rows, limit), SubqueryCap(order, rows, limit);
    if limit == 0 || forall row | row in rows :: row.parent.Some? {
      forall row | row in rows
        ensures (Rank(order, rows, row) <= limit) == HasKey(Siblings(order, rows, row.parent, limit), row.pk)
      {
        KeptByBoth(order, rows, limit, row);
      }
      FilterSame(rows, (row: Row) => Rank(order, rows, row) <= limit,
                 (row: Row) => HasKey(Siblings(order, rows, row.parent, limit), row.pk));
    } else {
      var row :| row in rows && row.parent.None?;
      WindowKeepsFirstRows(order, rows, limit, None);
      SubqueryKeepsFirstRows(order, rows, limit, None);
      SortedChildren(order, rows, None);
      assert row in Sort(order, Children(rows, None));
    }
  }

  lemma KeptByBoth(order: seq<Term>, rows: seq<Row>, limit: nat, row: Row)
    requires Table(rows) && Ranked(order, rows) && row in rows && (limit == 0 || row.parent.Some?)
    ensures (Rank(order, rows, row) <= limit) == HasKey(Siblings(order, rows, row.parent, limit), row.pk)
  {
    var byRank := (x: Row) => Rank(order, rows, x) <= limit;
    var byKey := (x: Row) => HasKey(Siblings(order, rows, x.parent, limit), x.pk);
    WindowKeepsFirstRows(order, rows, limit, row.parent);
    SubqueryKeepsFirstRows(order, rows, limit, row.parent);
    SwapFilters(order, rows, byRank, row.parent);
    SwapFilters(order, rows, byKey, row.parent);
    SortedChildren(order, rows, row.parent);
    var sorted := Sort(order, Children(rows, row.parent));
    assert row in Filter(sorted, byRank) <==> byRank(row);
    assert row in Filter(sorted, byKey) <==> byKey(row);
    assert limit == 0 ==> Take(sorted, limit) == [];
  }

  // --- Restricting to the parents at hand ---------------------------------------------------------

  ghost function Of(rows: seq<Row>, parents: set<nat>): seq<Row> {
    Filter(rows, (row: Row) => row.parent.Some? && row.parent.value in parents)
  }

  lemma RankWithinParents(order: seq<Term>, rows: seq<Row>, parents: set<nat>, row: Row)
    requires row.parent.Some? && row.parent.value in parents
    ensures Rank(order, Of(rows, parents), row) == Rank(order, rows, row)
  {
    FilterTwice(rows, (r: Row) => r.parent.Some? && r.parent.value in parents,
                (other: Row) => other.parent == row.parent && Before(order, other, row),
                (other: Row) => other.parent == row.parent && Before(order, other, row));
  }

  /** Capping the rows of some parents is the same as taking their part of the capped relation. */
  lemma WindowCapCommutes(order: seq<Term>, rows: seq<Row>, limit: nat, parents: set<nat>)
    ensures WindowCap(order, Of(rows, parents), limit) == Of(WindowCap(order, rows, limit), parents)
  {
    var mine := (row: Row) => row.parent.Some? && row.parent.value in parents;
    var keep := (row: Row) => Rank(order, rows, row) <= limit;
    var keepMine := (row: Row) => Rank(order, Of(rows, parents), row) <= limit;
    FilterSort(order, Filter(rows, keep), mine);
    forall row | row in rows && mine(row) ensures keep(row) == keepMine(row) {
      RankWithinParents(order, rows, parents, row);
    }
    FilterTwice(rows, keep, mine, (row: Row) => keep(row) && mine(row));
    FilterTwice(rows, mine, keepMine, (row: Row) => keep(row) && mine(row));
  }

  lemma SiblingsWithinParents(order: seq<Term>, rows: seq<Row>, parents: set<nat>, parent: Option<nat>, limit: nat)
    requires parent.Some? && parent.value in parents
    ensures Siblings(order, Of(rows, parents), parent, limit) == Siblings(order, rows, parent, limit)
  {
    var sibling := (other: Row) => parent.Some? && other.parent == parent;
    FilterTwice(rows, (r: Row) => r.parent.Some? && r.parent.value in parents, sibling, sibling);
  }

  lemma SubqueryCapCommutes(order: seq<Term>, rows: seq<Row>, limit: nat, parents: set<nat>)
    ensures SubqueryCap(order, Of(rows, parents), limit) == Of(SubqueryCap(order, rows, limit), parents)
  {
    var mine := (row: Row) => row.parent.Some? && row.parent.value in parents;
    var keep := (row: Row) => HasKey(Siblings(order, rows, row.parent, limit), row.pk);
    var keepMine := (row: Row) => HasKey(Siblings(order, Of(rows, parents), row.parent, limit), row.pk);
    FilterSort(order, Filter(rows, keep), mine);
    forall row | row in rows && mine(row) ensures keep(row) == keepMine(row) {
      SiblingsWithinParents(order, rows, parents, row.parent, limit);
    }
    FilterTwice(rows, keep, mine, (row: Row) => keep(row) && mine(row));
    FilterTwice(rows, mine, keepMine, (row: Row) => keep(row) && mine(row));
  }

  /** A prefetch asks for the rows of the parents at hand, so both caps serve it alike. */
  lemma PrefetchesAgree(order: seq<Term>, rows: seq<Row>, limit: nat, parents: set<nat>)
    requires Table(rows) && Ranked(order, rows)
    ensures Of(WindowCap(order, rows, limit), parents) == Of(SubqueryCap(order, rows, limit), parents)
  {
    var of := Of(rows, parents);
    WindowCapCommutes(order, rows, limit, parents);
    SubqueryCapCommutes(order, rows, limit, parents);
    FilterKeepsKeys(rows, (row: Row) => row.parent.Some? && row.parent.value in parents);
    CapsAgreeExactly(order, of, limit);
  }

  lemma {:induction false} FilterKeepsKeys(rows: seq<Row>, keep: Row -> bool)
    requires Table(rows)
    ensures Table(Filter(rows, keep))
  {
    if rows != [] {
      FilterKeepsKeys(rows[1..], keep);
      forall row | row in rows[1..] ensures row.pk != rows[0].pk {
        var i :| 0 <= i < |rows[1..]| && rows[1..][i] == row;
        assert rows[i + 1] == row;
      }
    }
  }
}
