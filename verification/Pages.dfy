/** Limit/offset pages: stable ordering, links and counts. */
module Pages {
  import opened Ordering

  // --- The ordering of a request ----------------------------------------------------------------

  /** An entry of `order_by` or `Meta.ordering`: a name with its direction, `?`, or an expression. */
  datatype Item = Named(name: string, descending: bool) | Random | Expression

  function TermsOf(items: seq<Item>, pkName: string): seq<Term> {
    if items == [] then []
    else (if items[0].Named? then [TermOf(items[0], pkName)] else []) + TermsOf(items[1..], pkName)
  }

  function TermOf(item: Item, pkName: string): Term
    requires item.Named?
  {
    if item.name == "pk" || item.name == pkName then Key(item.descending) else Column(item.name, item.descending)
  }

  /** _ordering_of, with the paginator's default. */
  function OrderingOf(orderBy: seq<Item>, metaOrdering: seq<Item>, pkName: string): seq<Term> {
    var declared := if orderBy != [] then orderBy else metaOrdering;
    var named := TermsOf(declared, pkName);
    var ordering := if named == [] then [Key(false)] else named;
    if exists term :: term in ordering && term.Key? then ordering else ordering + [Key(ordering[0].descending)]
  }

  /** The names among what is declared, in order; `?` and expressions are dropped. */
  ghost function NamedOf(items: seq<Item>): seq<Item> {
    if items == [] then [] else (if items[0].Named? then [items[0]] else []) + NamedOf(items[1..])
  }

  /** The term orders by the name, in its direction; the primary key goes by two names. */
  ghost predicate OrdersBy(term: Term, item: Item, pkName: string) {
    && item.Named? && term.descending == item.descending
    && if item.name == "pk" || item.name == pkName then term.Key? else term.Column? && term.name == item.name
  }

  lemma {:induction false} TermsFollowNames(items: seq<Item>, pkName: string)
    ensures |TermsOf(items, pkName)| == |NamedOf(items)|
    ensures forall i | 0 <= i < |NamedOf(items)| :: OrdersBy(TermsOf(items, pkName)[i], NamedOf(items)[i], pkName)
  {
    if items != [] { TermsFollowNames(items[1..], pkName); }
  }

  ghost predicate NameTheKey(names: seq<Item>, pkName: string) {
    exists i :: 0 <= i < |names| && names[i].Named? && (names[i].name == "pk" || names[i].name == pkName)
  }

  lemma KeyIsNamedOrNot(items: seq<Item>, pkName: string)
    ensures (exists term :: term in TermsOf(items, pkName) && term.Key?) <==> NameTheKey(NamedOf(items), pkName)
  {
    var names, terms := NamedOf(items), TermsOf(items, pkName);
    TermsFollowNames(items, pkName);
    NamesAreNamed(items);
    if NameTheKey(names, pkName) {
      var i :| 0 <= i < |names| && names[i].Named? && (names[i].name == "pk" || names[i].name == pkName);
      assert OrdersBy(terms[i], names[i], pkName) && terms[i] in terms;
    }
    if term :| term in terms && term.Key? {
      var i :| 0 <= i < |terms| && terms[i] == term;
      assert OrdersBy(terms[i], names[i], pkName);
    }
  }

  /** A queryset's own order, or else its model's, is kept name by name and direction by direction; the primary key
      is added only where it is not named, in the direction of the first name, and is all there is when nothing
      is declared. */
  lemma OrderingStartsAsDeclared(orderBy: seq<Item>, metaOrdering: seq<Item>, pkName: string)
    ensures var names := NamedOf(if |orderBy| > 0 then orderBy else metaOrdering);
      var ordering := OrderingOf(orderBy, metaOrdering, pkName);
      if names == [] then ordering == [Key(false)]
      else
        && |names| <= |ordering| && (forall i | 0 <= i < |names| :: OrdersBy(ordering[i], names[i], pkName))
        && if NameTheKey(names, pkName) then |ordering| == |names|
           else ordering[|names|..] == [Key(names[0].descending)]
  {
    var declared := if orderBy != [] then orderBy else metaOrdering;
    TermsFollowNames(declared, pkName);
    KeyIsNamedOrNot(declared, pkName);
    if NamedOf(declared) != [] { assert OrdersBy(TermsOf(declared, pkName)[0], NamedOf(declared)[0], pkName); }
  }

  lemma {:induction false} NamesAreNamed(items: seq<Item>)
    ensures forall item | item in NamedOf(items) :: item.Named?
  {
    if items != [] { NamesAreNamed(items[1..]); }
  }

  /** However a queryset is ordered, its pages are cut from one sequence: no two rows tie. */
  lemma PagesAreCutFromOneSequence(orderBy: seq<Item>, metaOrdering: seq<Item>, pkName: string, rows: seq<Row>,
                                   a: seq<Row>, b: seq<Row>)
    requires forall i, j | 0 <= i < j < |rows| :: rows[i].pk != rows[j].pk
    requires var order := OrderingOf(orderBy, metaOrdering, pkName); Answers(order, rows, a) && Answers(order, rows, b)
    ensures a == b
    ensures NoTies(OrderingOf(orderBy, metaOrdering, pkName), rows)
  {
    var order := OrderingOf(orderBy, metaOrdering, pkName);
    assert exists term :: term in order && term.Key? by {
      assert order[|order| - 1] in order;
    }
    forall x, y | x in rows && y in rows && x != y ensures Compare(order, x, y) != 0 {
      KeyBreaksTies(order, x, y);
    }
    AnswerIsUnique(order, rows, a, b);
  }

  /** What the added key is for: a query has one answer exactly when its ordering ties no rows. */
  lemma OneAnswerExactlyWithoutTies(order: seq<Term>, rows: seq<Row>)
    requires Distinct(rows)
    ensures NoTies(order, rows) <==> forall a, b | Answers(order, rows, a) && Answers(order, rows, b) :: a == b
  {
    if NoTies(order, rows) {
      forall a, b | Answers(order, rows, a) && Answers(order, rows, b) ensures a == b {
        AnswerIsUnique(order, rows, a, b);
      }
    } else {
      var x, y :| x in rows && y in rows && x != y && Compare(order, x, y) == 0;
      var a, b := TwoAnswers(order, rows, x, y);
    }
  }

  lemma TwoAnswers(order: seq<Term>, rows: seq<Row>, x: Row, y: Row) returns (a: seq<Row>, b: seq<Row>)
    requires x in rows && y in rows && x != y && Compare(order, x, y) == 0
    ensures Answers(order, rows, a) && Answers(order, rows, b) && a != b
  {
    a := Sort(order, rows);
    SortAnswers(order, rows);
    SameMembers(a, rows);
    var i :| 0 <= i < |a| && a[i] == x;
    var j :| 0 <= j < |a| && a[j] == y;
    TiesSwap(order, a, i, j);
    SwapPermutes(a, i, j);
    b := a[i := a[j]][j := a[i]];
    assert b[i] == y;
  }

  lemma SwapPermutes(rows: seq<Row>, i: nat, j: nat)
    requires i < |rows| && j < |rows|
    ensures multiset(rows[i := rows[j]][j := rows[i]]) == multiset(rows)
  {
  }

  lemma TiesSwap(order: seq<Term>, rows: seq<Row>, i: nat, j: nat)
    requires Ascending(order, rows) && i < |rows| && j < |rows| && Compare(order, rows[i], rows[j]) == 0
    ensures Ascending(order, rows[i := rows[j]][j := rows[i]])
  {
    var swapped := rows[i := rows[j]][j := rows[i]];
    ComparesOppositely(order, rows[i], rows[j]);
    forall k | 0 <= k < |rows|
      ensures Compare(order, swapped[k], rows[k]) <= 0 && Compare(order, rows[k], swapped[k]) <= 0
    {
      ComparesOppositely(order, rows[k], rows[k]);
    }
    forall k, l | 0 <= k < l < |swapped| ensures Compare(order, swapped[k], swapped[l]) <= 0 {
      ComparesTransitively(order, swapped[k], rows[k], rows[l]);
      ComparesTransitively(order, swapped[k], rows[l], swapped[l]);
    }
  }

  // --- One page ---------------------------------------------------------------------------------

  datatype Config = Config(defaultLimit: nat, maxLimit: nat, maxOffset: Option<nat>)

  datatype Request = Request(limit: Option<nat>, offset: nat)

  datatype Page = Page(items: seq<Row>, next: Option<Request>, previous: Option<Request>)

  function Limit(config: Config, request: Request): nat {
    var limit := if request.limit.Some? then request.limit.value else config.defaultLimit;
    if limit < config.maxLimit then limit else config.maxLimit
  }

  function Slice(rows: seq<Row>, from: nat, to: nat): seq<Row>
    requires from <= to
  {
    if |rows| <= from then [] else if |rows| <= to then rows[from..] else rows[from..to]
  }

  /** One page of what the database answered; `None` when the offset is refused. */
  function Serve(config: Config, answer: seq<Row>, request: Request): Option<Page> {
    var limit, offset := Limit(config, request), request.offset;
    if config.maxOffset.Some? && offset > config.maxOffset.value then None
    else
      var rows := Slice(answer, offset, offset + limit + 1);
      Some(Page(
        Slice(rows, 0, limit),
        if |rows| > limit then Some(Request(Some(limit), offset + limit)) else None,
        if offset > 0 then Some(Request(Some(limit), if offset < limit then 0 else offset - limit)) else None))
  }

  /** An offset beyond the configured one is refused, and no other; a page has at most as many rows as were asked
      for, by default the configured number, and never more than the maximum: exactly the rows from its offset
      on. The page before starts a page earlier, or at the start. */
  lemma PagesHoldTheirRows(config: Config, answer: seq<Row>, request: Request)
    ensures Serve(config, answer, request).None? <==>
            config.maxOffset.Some? && request.offset > config.maxOffset.value
    ensures Serve(config, answer, request).Some? ==>
      var asked := if request.limit.Some? then request.limit.value else config.defaultLimit;
      var limit := if asked <= config.maxLimit then asked else config.maxLimit;
      var page, left := Serve(config, answer, request).value, |answer| - request.offset;
      && |page.items| == (if left <= 0 then 0 else if left <= limit then left else limit)
      && (forall i | 0 <= i < |page.items| :: page.items[i] == answer[request.offset + i])
      && page.next == (if left > limit then Some(Request(Some(limit), request.offset + limit)) else None)
      && page.previous == if request.offset == 0 then None
                          else if request.offset < limit then Some(Request(Some(limit), 0))
                          else Some(Request(Some(limit), request.offset - limit))
  {
  }

  lemma PageIsItsPart(config: Config, answer: seq<Row>, request: Request)
    requires Serve(config, answer, request).Some?
    ensures var page, limit := Serve(config, answer, request).value, Limit(config, request);
      && page.items == Slice(answer, request.offset, request.offset + limit)
      && (page.next.Some? <==> request.offset + limit < |answer|)
      && (page.next.Some? ==>
          Limit(config, page.next.value) == limit && page.next.value.offset == request.offset + limit)
      && (page.previous.Some? ==> Limit(config, page.previous.value) == limit)
  {
  }

  // --- Walking ----------------------------------------------------------------------------------

  /** Following `next` from a request; the database may answer each request anew. */
  ghost function Walk(config: Config, answers: nat -> seq<Row>, size: nat, turn: nat, request: Request): seq<Row>
    requires forall n :: |answers(n)| == size
    requires Limit(config, request) > 0
    decreases size - request.offset
  {
    var page := Serve(config, answers(turn), request);
    if page.None? then []
    else if page.value.next.None? then page.value.items
    else
      PageIsItsPart(config, answers(turn), request);
      page.value.items + Walk(config, answers, size, turn + 1, page.value.next.value)
  }

  /** A walk is a page and the walk from the next one. */
  lemma WalkStep(config: Config, answers: nat -> seq<Row>, size: nat, turn: nat, request: Request)
    requires forall n :: |answers(n)| == size
    requires Limit(config, request) > 0 && config.maxOffset.None?
    ensures var page, limit := Slice(answers(turn), request.offset, request.offset + Limit(config, request)),
                               Limit(config, request);
      var next := Request(Some(limit), request.offset + limit);
      && Limit(config, next) == limit
      && Walk(config, answers, size, turn, request) ==
         if request.offset + limit < size then page + Walk(config, answers, size, turn + 1, next) else page
  {
    PageIsItsPart(config, answers(turn), request);
  }

  lemma {:induction false} WalkIsTheRest(config: Config, answers: nat -> seq<Row>, answer: seq<Row>, turn: nat,
                                         request: Request)
    requires forall n :: answers(n) == answer
    requires Limit(config, request) > 0 && config.maxOffset.None?
    ensures Walk(config, answers, |answer|, turn, request) == Slice(answer, request.offset, request.offset + |answer|)
    decreases |answer| - request.offset
  {
    var limit, rest := Limit(config, request), [];
    WalkStep(config, answers, |answer|, turn, request);
    if request.offset + limit < |answer| {
      var next := Request(Some(limit), request.offset + limit);
      WalkIsTheRest(config, answers, answer, turn + 1, next);
      rest := Walk(config, answers, |answer|, turn + 1, next);
    }
    PageAndRest(answer, request.offset, limit, rest);
  }

  lemma PageAndRest(answer: seq<Row>, offset: nat, limit: nat, rest: seq<Row>)
    requires offset + limit < |answer| ==> rest == Slice(answer, offset + limit, offset + limit + |answer|)
    ensures Slice(answer, offset, offset + |answer|) ==
      if offset + limit < |answer| then Slice(answer, offset, offset + limit) + rest
      else Slice(answer, offset, offset + limit)
  {
    if offset + limit < |answer| {
      SlicesJoin(answer, offset, limit);
    } else {
      LastSlice(answer, offset, limit);
    }
  }

  lemma LastSlice(rows: seq<Row>, offset: nat, limit: nat)
    requires |rows| <= offset + limit
    ensures Slice(rows, offset, offset + limit) == Slice(rows, offset, offset + |rows|)
  {
  }

  lemma SlicesJoin(rows: seq<Row>, offset: nat, limit: nat)
    requires offset + limit < |rows|
    ensures Slice(rows, offset, offset + |rows|)
         == Slice(rows, offset, offset + limit) + Slice(rows, offset + limit, offset + limit + |rows|)
  {
  }

  /** Page walks are exact: whatever order the database keeps the table in at each request, the
      pages followed from the first one concatenate to the rows in the one order there is. */
  lemma WalksAreExact(config: Config, orderBy: seq<Item>, metaOrdering: seq<Item>, pkName: string, rows: seq<Row>,
                      answers: nat -> seq<Row>, limit: Option<nat>)
    requires forall i, j | 0 <= i < j < |rows| :: rows[i].pk != rows[j].pk
    requires forall n :: Answers(OrderingOf(orderBy, metaOrdering, pkName), rows, answers(n))
    requires Limit(config, Request(limit, 0)) > 0 && config.maxOffset.None?
    ensures forall n :: |answers(n)| == |rows|
    ensures Walk(config, answers, |rows|, 0, Request(limit, 0)) == Sort(OrderingOf(orderBy, metaOrdering, pkName), rows)
  {
    var order := OrderingOf(orderBy, metaOrdering, pkName);
    var sorted := Sort(order, rows);
    SortAnswers(order, rows);
    SameMembers(sorted, rows);
    forall n ensures answers(n) == sorted {
      PagesAreCutFromOneSequence(orderBy, metaOrdering, pkName, rows, answers(n), sorted);
    }
    WalkIsTheRest(config, answers, sorted, 0, Request(limit, 0));
  }

  /** A walk moves on exactly when its limit is positive; a limit of zero comes from the options. */
  lemma NextMovesOnExactlyWhenPositive(config: Config, answer: seq<Row>, request: Request)
    requires Serve(config, answer, request).Some? && Serve(config, answer, request).value.next.Some?
    ensures Serve(config, answer, request).value.next.value.offset > request.offset <==> Limit(config, request) > 0
  {
  }

  /** `previous` undoes `next`. */
  lemma PreviousUndoesNext(config: Config, answer: seq<Row>, request: Request)
    requires config.maxOffset.None? && Limit(config, request) > 0
    requires Serve(config, answer, request).value.next.Some?
    ensures var next := Serve(config, answer, request).value.next.value;
      var back := Serve(config, answer, next).value.previous;
      && back.Some? && back.value.offset == request.offset
      && Serve(config, answer, back.value) == Serve(config, answer, request)
  {
    PageIsItsPart(config, answer, request);
  }

  /** The page before one reached by hand ends where that one starts exactly when a whole page fits
      before it. */
  lemma PreviousMeetsExactly(config: Config, answer: seq<Row>, request: Request)
    requires config.maxOffset.None? && 0 < request.offset < |answer|
    ensures var page := Serve(config, answer, request).value;
      var before := Serve(config, answer, page.previous.value).value;
      before.items == Slice(answer, page.previous.value.offset, request.offset) <==>
      Limit(config, request) <= request.offset
  {
    var page := Serve(config, answer, request).value;
    PageIsItsPart(config, answer, request);
    PageIsItsPart(config, answer, page.previous.value);
  }

  // --- Counts -----------------------------------------------------------------------------------

  datatype Count = Exact | Skipped | Estimate | Capped(cap: nat)

  datatype Total = Total(count: Option<nat>, lowerBound: bool)

  /** _total: `estimate` is what the database guesses for an unfiltered query, if it does. */
  function TotalOf(option: Count, rows: seq<Row>, unfiltered: bool, estimate: Option<nat>): Total {
    match option
    case Skipped => Total(None, false)
    case Exact => Total(Some(|rows|), false)
    case Estimate => if unfiltered && estimate.Some? then Total(estimate, false) else Total(Some(|rows|), false)
    case Capped(cap) =>
      var found := |Slice(rows, 0, cap + 1)|;
      if found > cap then Total(Some(cap), true) else Total(Some(found), false)
  }

  /** The number of rows, nothing, the database's estimate of a whole table, or the number up to a cap. */
  lemma CountsAreWhatWasAsked(rows: seq<Row>, unfiltered: bool, estimate: Option<nat>, cap: nat)
    ensures TotalOf(Exact, rows, unfiltered, estimate) == Total(Some(|rows|), false)
    ensures TotalOf(Skipped, rows, unfiltered, estimate).count == None
    ensures TotalOf(Estimate, rows, unfiltered, estimate) ==
            Total(if unfiltered && estimate.Some? then estimate else Some(|rows|), false)
    ensures TotalOf(Capped(cap), rows, unfiltered, estimate) ==
            Total(Some(if |rows| <= cap then |rows| else cap), |rows| > cap)
  {
  }

  /** Every count but an estimate is a lower bound, and it is flagged exactly when it is not the
      number of rows. */
  lemma CountIsFlaggedExactly(option: Count, rows: seq<Row>, unfiltered: bool, estimate: Option<nat>)
    requires !option.Skipped? && (option.Estimate? && unfiltered ==> estimate.None?)
    ensures var total := TotalOf(option, rows, unfiltered, estimate);
      && total.count.Some? && total.count.value <= |rows|
      && (total.lowerBound <==> total.count.value < |rows|)
      && (option.Capped? ==> (total.lowerBound <==> |rows| > option.cap))
  {
  }
}
