/** Relations a caller asks to load on top of a derived plan change nothing that is rendered. */
module QueryHints {
  import opened QueryPlan
  import opened PlanRendering
  import opened PlanExactness

  // --- Prefetches stand on the planner's own joins ----------------------------------------------------------

  /** A to-many relation of the model that is queried or of one that the planner joined. */
  ghost predicate StandsOnJoins(c: Catalog, plan: Plan, lookup: Path) {
    && lookup != []
    && var before := lookup[..|lookup| - 1];
    && (before == [] || before in plan.select)
    && ModelAt(c, plan.model, before).Some? && IsToMany(c, ModelAt(c, plan.model, before).value, lookup[|lookup| - 1])
  }

  ghost predicate WellRooted(c: Catalog, plan: Plan) {
    forall entry | entry in plan.prefetch :: StandsOnJoins(c, plan, entry.0)
  }

  lemma {:induction false} CollectIsWellRooted(c: Catalog, plan: Plan, model: Model, schema: Schema, prefix: Path,
                                               depth: nat, expand: set<string>)
    requires depth < MAX_DEPTH && WellRooted(c, plan)
    requires (prefix == [] || prefix in plan.select) && ModelAt(c, plan.model, prefix) == Some(model)
    ensures WellRooted(c, Collect(c, plan, model, schema, prefix, depth, expand))
    decreases MAX_DEPTH - depth, 2, 0
  {
    FieldsAreWellRooted(c, plan.(columns := plan.columns + [Column(prefix, KeyOf(c, model))]), model,
                        FieldsOf(c, schema), prefix, depth, expand);
  }

  lemma {:induction false} FieldsAreWellRooted(c: Catalog, plan: Plan, model: Model, infos: seq<Info>, prefix: Path,
                                               depth: nat, expand: set<string>)
    requires depth < MAX_DEPTH && WellRooted(c, plan)
    requires (prefix == [] || prefix in plan.select) && ModelAt(c, plan.model, prefix) == Some(model)
    ensures WellRooted(c, CollectFields(c, plan, model, infos, prefix, depth, expand))
    decreases MAX_DEPTH - depth, 1, |infos|
  {
    if infos != [] {
      FieldIsWellRooted(c, plan, model, infos[0], prefix, depth, expand);
      FieldGrows(c, plan, model, infos[0], prefix, depth, expand);
      FieldsAreWellRooted(c, CollectField(c, plan, model, infos[0], prefix, depth, expand), model, infos[1..], prefix,
                          depth, expand);
    }
  }

  lemma {:induction false} FieldIsWellRooted(c: Catalog, plan: Plan, model: Model, info: Info, prefix: Path,
                                             depth: nat, expand: set<string>)
    requires depth < MAX_DEPTH && WellRooted(c, plan)
    requires (prefix == [] || prefix in plan.select) && ModelAt(c, plan.model, prefix) == Some(model)
    ensures WellRooted(c, CollectField(c, plan, model, info, prefix, depth, expand))
    decreases MAX_DEPTH - depth, 0, 0
  {
    var attr := info.attribute;
    match FieldOf(c, model, attr)
    case None => HintsOnlyForce(c, plan.(exact := false), model, info.hints);
    case Some(Scalar) =>
    case Some(Forward(related, attname)) =>
      if Nests(info, expand, depth) {
        var path := prefix + [attr];
        var p := plan.(columns := plan.columns + [Column(prefix, attname)], select := plan.select + [path]);
        StaysRooted(c, plan, p);
        PathExtends(c, plan.model, prefix, model, attr);
        CollectIsWellRooted(c, p, related, info.nested.value, path, depth + 1, {});
      }
    case Some(many) =>
      if !Folded(info, expand) {
        ManyIsWellRooted(c, plan, model, prefix, attr, ChildPlan(c, many, info, depth, expand));
      }
  }

  lemma StaysRooted(c: Catalog, p: Plan, q: Plan)
    requires WellRooted(c, p) && q.model == p.model && q.prefetch == p.prefetch && p.select <= q.select
    ensures WellRooted(c, q)
  {
    forall entry | entry in q.prefetch ensures StandsOnJoins(c, q, entry.0) {
      assert StandsOnJoins(c, p, entry.0);
    }
  }

  lemma ManyIsWellRooted(c: Catalog, plan: Plan, model: Model, prefix: Path, attr: Attr, child: Plan)
    requires WellRooted(c, plan) && IsToMany(c, model, attr)
    requires (prefix == [] || prefix in plan.select) && ModelAt(c, plan.model, prefix) == Some(model)
    ensures WellRooted(c, plan.(prefetch := plan.prefetch + [(prefix + [attr], child)]))
  {
    var path, q := prefix + [attr], plan.(prefetch := plan.prefetch + [(prefix + [attr], child)]);
    assert path[..|path| - 1] == prefix && path[|path| - 1] == attr;
    forall entry | entry in q.prefetch ensures StandsOnJoins(c, q, entry.0) {
      if entry in plan.prefetch { assert StandsOnJoins(c, plan, entry.0); }
    }
  }

  // --- More lookups load no less ------------------------------------------------------------------------------

  ghost predicate Contains(more: seq<Path>, lookups: seq<Path>) {
    forall lookup | lookup in lookups :: lookup in more
  }

  lemma ThroughContains(more: seq<Path>, lookups: seq<Path>, attr: Attr)
    requires Contains(more, lookups)
    ensures Contains(Through(more, attr), Through(lookups, attr))
    ensures Through(lookups, attr) != [] ==> Through(more, attr) != []
  {
    forall rest | rest in Through(lookups, attr) ensures rest in Through(more, attr) {
      ThroughHolds(lookups, attr, rest);
      ThroughHolds(more, attr, rest);
    }
    assert Through(lookups, attr) != [] ==> Through(lookups, attr)[0] in Through(lookups, attr);
  }

  /** The same objects with more lookups that go on. */
  ghost predicate SameWithMore(v: View, w: View) {
    w == View(v.plan, v.at, w.extra) && Contains(w.extra, v.extra)
  }

  lemma {:induction false} MoreLookupsRead(c: Catalog, v: View, w: View, only: bool, model: Model, path: Path)
    requires SameWithMore(v, w) && CanRead(c, v, only, model, path)
    ensures CanRead(c, w, only, model, path)
    decreases |path|
  {
    if path != [] {
      ThroughContains(w.extra, v.extra, path[0]);
      match FieldOf(c, model, path[0])
      case None =>
      case Some(Scalar) =>
      case Some(Forward(related, attname)) =>
        MoreLookupsRead(c, FollowForward(v, path[0], related).value, FollowForward(w, path[0], related).value, only,
                        related, path[1..]);
      case Some(many) =>
        MoreLookupsRead(c, FollowMany(v, only, path[0], many.related).value,
                        FollowMany(w, only, path[0], many.related).value, only,
                        many.related, path[1..]);
    }
  }

  /** Whole rows that were joined lead wherever the rows of a bare query do, if nothing is prefetched
      below the join. */
  lemma {:induction false} JoinedInsteadRead(c: Catalog, v: View, w: View, only: bool, model: Model, path: Path)
    requires v == WholeRows(model, v.extra) && Contains(w.extra, v.extra) && !Restricted(w.plan, only)
    requires forall entry | entry in w.plan.prefetch :: !(w.at <= entry.0)
    requires CanRead(c, v, only, model, path)
    ensures CanRead(c, w, only, model, path)
    decreases |path|
  {
    if path != [] {
      var attr := path[0];
      ThroughContains(w.extra, v.extra, attr);
      assert w.at <= w.at + [attr];
      match FieldOf(c, model, attr)
      case None =>
      case Some(Scalar) =>
      case Some(Forward(related, attname)) =>
        var next := FollowForward(w, attr, related).value;
        if IsJoined(w.plan, w.at + [attr]) {
          JoinedInsteadRead(c, WholeRows(related, Through(v.extra, attr)), next, only, related, path[1..]);
        } else {
          MoreLookupsRead(c, WholeRows(related, Through(v.extra, attr)), next, only, related, path[1..]);
        }
      case Some(many) =>
        NotSeen(w.plan.prefetch, only, w.at + [attr]);
        MoreLookupsRead(c, WholeRows(many.related, Through(v.extra, attr)),
                        FollowMany(w, only, attr, many.related).value, only,
                        many.related, path[1..]);
    }
  }

  /** The queried objects of a plan, and those of the same plan with more forced lookups. */
  ghost predicate ForcedMore(v: View, w: View) {
    && w.at == v.at && Contains(w.extra, v.extra)
    && w.plan == v.plan.(forcedSelect := w.plan.forcedSelect, forcedPrefetch := w.plan.forcedPrefetch)
    && Contains(w.plan.forcedSelect, v.plan.forcedSelect)
  }

  lemma {:induction false} ForcedMoreReads(c: Catalog, v: View, w: View, only: bool, model: Model, path: Path)
    requires ForcedMore(v, w) && !v.plan.exact && WellRooted(c, v.plan) && ModelAt(c, v.plan.model, v.at) == Some(model)
    requires CanRead(c, v, only, model, path)
    ensures CanRead(c, w, only, model, path)
    decreases |path|
  {
    if path != [] {
      var attr := path[0];
      ThroughContains(w.extra, v.extra, attr);
      match FieldOf(c, model, attr)
      case None =>
      case Some(Scalar) =>
      case Some(Forward(related, attname)) =>
        var here, next := FollowForward(v, attr, related).value, FollowForward(w, attr, related).value;
        if IsJoined(v.plan, v.at + [attr]) {
          PathExtends(c, v.plan.model, v.at, model, attr);
          ForcedMoreReads(c, here, next, only, related, path[1..]);
        } else if IsJoined(w.plan, w.at + [attr]) {
          NothingBelowUnjoined(c, v.plan, v.at, model, attr);
          JoinedInsteadRead(c, here, next, only, related, path[1..]);
        } else {
          MoreLookupsRead(c, here, next, only, related, path[1..]);
        }
      case Some(many) =>
        MoreLookupsRead(c, FollowMany(v, only, attr, many.related).value,
                        FollowMany(w, only, attr, many.related).value, only,
                        many.related, path[1..]);
    }
  }

  lemma NothingBelowUnjoined(c: Catalog, plan: Plan, at: Path, model: Model, attr: Attr)
    requires WellRooted(c, plan) && ModelAt(c, plan.model, at) == Some(model) && IsForward(c, model, attr)
      && !IsJoined(plan, at + [attr])
    ensures forall entry | entry in plan.prefetch :: !(at + [attr] <= entry.0)
  {
    var path := at + [attr];
    assert path[..|at|] == at && path[|at|] == attr;
    forall entry | entry in plan.prefetch ensures !(path <= entry.0) {
      var lookup := entry.0;
      assert StandsOnJoins(c, plan, lookup);
      var before := lookup[..|lookup| - 1];
      assert path <= lookup && path != lookup ==> path <= before;
    }
  }

  lemma {:induction false} MoreLookupsServe(c: Catalog, v: View, w: View, only: bool, model: Model, schema: Schema,
                                            depth: nat, expand: set<string>)
    requires depth < MAX_DEPTH && SameWithMore(v, w) && Serves(c, v, only, model, schema, depth, expand)
    ensures Serves(c, w, only, model, schema, depth, expand)
    decreases MAX_DEPTH - depth, 1
  {
    forall info | info in FieldsOf(c, schema) ensures ServesField(c, w, only, model, info, depth, expand) {
      assert ServesField(c, v, only, model, info, depth, expand);
      var attr := info.attribute;
      ThroughContains(w.extra, v.extra, attr);
      match FieldOf(c, model, attr)
      case None =>
        forall hint | hint in info.hints
          ensures CanRead(c, w, only, model, hint)
        {
          MoreLookupsRead(c, v, w, only, model, hint);
        }
      case Some(Scalar) =>
      case Some(Forward(related, _)) =>
        if Nests(info, expand, depth) {
          MoreLookupsServe(c, View(v.plan, v.at + [attr], Through(v.extra, attr)),
                           View(w.plan, w.at + [attr], Through(w.extra, attr)), only,
                           related, info.nested.value, depth + 1, {});
        }
      case Some(many) => ManyServesMore(c, v, w, only, model, many, info, depth, expand);
    }
  }

  /** Below a to-many relation the plan is the same one. */
  lemma {:induction false} ManyServesMore(c: Catalog, v: View, w: View, only: bool, model: Model, many: Field,
                                          info: Info, depth: nat, expand: set<string>)
    requires depth < MAX_DEPTH && v.at == w.at && v.plan.prefetch == w.plan.prefetch && Contains(w.extra, v.extra)
    requires FieldOf(c, model, info.attribute) == Some(many) && ToMany(many)
    requires ServesField(c, v, only, model, info, depth, expand)
    ensures ServesField(c, w, only, model, info, depth, expand)
    decreases MAX_DEPTH - depth, 0
  {
    if !Folded(info, expand) && Nests(info, expand, depth) {
      ThroughContains(w.extra, v.extra, info.attribute);
      match LookUp(v.plan.prefetch, only, v.at + [info.attribute])
      case Once(first) =>
        if first == ChildPlan(c, many, info, depth, expand) {
          MoreLookupsServe(c, View(first, [], first.forcedPrefetch + Through(v.extra, info.attribute)),
                           View(first, [], first.forcedPrefetch + Through(w.extra, info.attribute)), only,
                           many.related, info.nested.value, depth + 1, {});
        }
    }
  }

  lemma {:induction false} ForcedMoreServes(c: Catalog, v: View, w: View, only: bool, model: Model, schema: Schema,
                                            depth: nat, expand: set<string>)
    requires depth < MAX_DEPTH && ForcedMore(v, w) && WellRooted(c, v.plan)
      && ModelAt(c, v.plan.model, v.at) == Some(model)
    requires CoversSchema(c, v.plan, model, schema, v.at, depth, expand)
      && Serves(c, v, only, model, schema, depth, expand)
    ensures Serves(c, w, only, model, schema, depth, expand)
    decreases MAX_DEPTH - depth, 1
  {
    forall info | info in FieldsOf(c, schema) ensures ServesField(c, w, only, model, info, depth, expand) {
      assert ServesField(c, v, only, model, info, depth, expand) && Covers(c, v.plan, model, info, v.at, depth, expand);
      var attr := info.attribute;
      match FieldOf(c, model, attr)
      case None =>
        forall hint | hint in info.hints
          ensures CanRead(c, w, only, model, hint)
        {
          ForcedMoreReads(c, v, w, only, model, hint);
        }
      case Some(Scalar) =>
      case Some(Forward(related, _)) =>
        if Nests(info, expand, depth) {
          ThroughContains(w.extra, v.extra, attr);
          PathExtends(c, v.plan.model, v.at, model, attr);
          ForcedMoreServes(c, View(v.plan, v.at + [attr], Through(v.extra, attr)),
                           View(w.plan, w.at + [attr], Through(w.extra, attr)), only,
                           related, info.nested.value, depth + 1, {});
        }
      case Some(many) => ManyServesMore(c, v, w, only, model, many, info, depth, expand);
    }
  }

  /** Where the derived plan is right about a schema and the hinted one runs, the hinted one is right
      as well. */
  lemma HintsKeepRendering(c: Catalog, model: Model, schema: Schema, expand: set<string>, hints: seq<Path>, only: bool)
    requires RendersAlike(c, QueryPlanOf(c, model, schema, expand, []), only, model, schema, expand)
    requires Runs(c, QueryPlanOf(c, model, schema, expand, hints), only)
    ensures RendersAlike(c, QueryPlanOf(c, model, schema, expand, hints), only, model, schema, expand)
  {
    var derived, plan := QueryPlanOf(c, model, schema, expand, []), QueryPlanOf(c, model, schema, expand, hints);
    PlanRendersExactlyWhenItServes(c, model, schema, expand, [], only);
    QueryPlanCovers(c, model, schema, expand, []);
    CollectIsWellRooted(c, NewPlan(model), model, schema, [], 0, expand);
    CollectGrows(c, NewPlan(model), model, schema, [], 0, expand);
    HintsOnlyForce(c, derived, model, hints);
    ForcedMoreServes(c, RootView(derived), RootView(plan), only, model, schema, 0, expand);
    PlanRunsExactly(c, model, schema, expand, hints, only);
    PlanRendersExactlyWhenItServes(c, model, schema, expand, hints, only);
  }

  // --- Hints that a query with restricted columns refuses -----------------------------------------------------

  /** How a schema of articles renders their author. */
  datatype Form = Omitted | AsKey | Nested

  /** Articles have an author, users a team and a name. */
  function Articles(form: Form): Catalog {
    Catalog(map[0 := map["author" := Forward(1, "author_id")],
                1 := map["name" := Scalar, "team" := Forward(2, "team_id")]],
            map[],
            map[0 := if form.Omitted? then [] else [Rendered(form)], 1 := [Info("name", "name", None, false, [])]])
  }

  function Rendered(form: Form): Info {
    Info("author", "author", if form.Nested? then Some(1) else None, false, [])
  }

  const HINT := ["author", "team"]

  /** Whatever the columns, the plan has the hint as its one forced lookup. */
  function HintedPlan(form: Form): Plan {
    var id := Column([], "id");
    match form
    case Omitted => Plan(0, [], [], [id], true, [HINT], [])
    case AsKey => Plan(0, [], [], [id, Column([], "author_id")], true, [HINT], [])
    case Nested =>
      Plan(0, [["author"]], [], [id, Column([], "author_id"), Column(["author"], "id"), Column(["author"], "name")],
           true, [HINT], [])
  }

  lemma PlansOfArticles(form: Form)
    ensures QueryPlanOf(Articles(form), 0, 0, {}, [HINT]) == HintedPlan(form)
  {
    var c := Articles(form);
    var derived := Collect(c, NewPlan(0), 0, 0, [], 0, {});
    ArticlesCollected(form);
    assert IsForward(c, 0, HINT[0]) && [HINT][1..] == [] && derived.forcedSelect + [HINT] == [HINT];
    assert ApplyHint(c, derived, 0, HINT) == HintedPlan(form);
    assert ApplyHints(c, derived, 0, [HINT]) == ApplyHints(c, HintedPlan(form), 0, []);
  }

  lemma ArticlesCollected(form: Form)
    ensures Collect(Articles(form), NewPlan(0), 0, 0, [], 0, {}) == HintedPlan(form).(forcedSelect := [])
  {
    var c, start := Articles(form), NewPlan(0).(columns := [Column([], "id")]);
    assert NewPlan(0).columns + [Column([], "id")] == [Column([], "id")];
    if !form.Omitted? {
      var info := Rendered(form);
      assert [info][1..] == [] && FieldOf(c, 0, "author") == Some(Forward(1, "author_id"));
      var keyed := start.(columns := [Column([], "id"), Column([], "author_id")]);
      assert start.columns + [Column([], "author_id")] == keyed.columns;
      if form.Nested? {
        var joined := keyed.(select := [["author"]]);
        assert [] + ["author"] == ["author"] && keyed.select + [["author"]] == joined.select;
        AuthorCollected(joined);
        assert CollectField(c, start, 0, info, [], 0, {}) == Collect(c, joined, 1, 1, ["author"], 1, {});
      } else {
        assert CollectField(c, start, 0, info, [], 0, {}) == keyed;
      }
      assert CollectFields(c, start, 0, [info], [], 0, {}) == CollectField(c, start, 0, info, [], 0, {});
    }
  }

  lemma AuthorCollected(plan: Plan)
    ensures Collect(Articles(Nested), plan, 1, 1, ["author"], 1, {})
         == plan.(columns := plan.columns + [Column(["author"], "id"), Column(["author"], "name")])
  {
    var c, name := Articles(Nested), Info("name", "name", None, false, []);
    assert FieldsOf(c, 1) == [name] && [name][1..] == [] && FieldOf(c, 1, "name") == Some(Scalar);
    var keyed := plan.(columns := plan.columns + [Column(["author"], "id")]);
    assert CollectFields(c, keyed, 1, [name], ["author"], 1, {}) == CollectField(c, keyed, 1, name, ["author"], 1, {});
    assert keyed.columns + [Column(["author"], "name")]
        == plan.columns + [Column(["author"], "id"), Column(["author"], "name")];
  }

  lemma ArticlesAreServed(form: Form, only: bool)
    ensures Serves(Articles(form), RootView(HintedPlan(form)), only, 0, 0, 0, {})
  {
  }

  lemma TeamIsJoinedExactly(form: Form)
    ensures JoinAllowed(Articles(form), HintedPlan(form).columns, [], 0, HINT) <==> form.AsKey?
  {
  }

  /** Joining the author's team is refused once columns are restricted, if the author is not rendered,
      which defers its key, or is rendered through some of its columns, which defers the team's. It is
      accepted, and loads authors whole, when just the author's key is rendered. */
  lemma HintsThroughDeferredKeysAreRefused(form: Form, only: bool)
    ensures RendersAlike(Articles(form), QueryPlanOf(Articles(form), 0, 0, {}, [HINT]), only, 0, 0, {})
      <==> !only || form.AsKey?
  {
    PlansOfArticles(form);
    PlanRendersExactlyWhenItServes(Articles(form), 0, 0, {}, [HINT], only);
    ArticlesAreServed(form, only);
    TeamIsJoinedExactly(form);
    assert HINT in [HINT];
    assert ModelAt(Articles(form), 0, HINT) == Some(2);
  }
}
