/** Exactly when a derived plan is accepted by the database layer and loads what its schema renders. */
module PlanExactness {
  import opened QueryPlan
  import opened PlanRendering

  // --- Which queries are accepted -------------------------------------------------------------------

  /** The model a chain of forward relations leads to. */
  function ModelAt(c: Catalog, model: Model, path: Path): Option<Model>
    decreases |path|
  {
    if path == [] then Some(model)
    else if IsForward(c, model, path[0]) then ModelAt(c, FieldOf(c, model, path[0]).value.related, path[1..])
    else None
  }

  /** A path of relations of any kind. */
  predicate Fetchable(c: Catalog, model: Model, path: Path)
    decreases |path|
  {
    path == [] ||
    match FieldOf(c, model, path[0])
    case None => false
    case Some(Scalar) => false
    case Some(relation) => Fetchable(c, relation.related, path[1..])
  }

  /** A join is allowed to follow a key that the query loads. */
  predicate JoinAllowed(c: Catalog, columns: seq<Column>, at: Path, model: Model, path: Path)
    decreases |path|
  {
    path == [] ||
    (IsForward(c, model, path[0]) &&
     var key := FieldOf(c, model, path[0]).value;
     Loads(c, columns, at, model, key.attname) && JoinAllowed(c, columns, at + [path[0]], key.related, path[1..]))
  }

  /** Every foreign key that a join path follows is among the columns: more than is needed. */
  predicate KeysLoaded(c: Catalog, columns: seq<Column>, at: Path, model: Model, path: Path)
    decreases |path|
  {
    path == [] ||
    (IsForward(c, model, path[0]) &&
     var key := FieldOf(c, model, path[0]).value;
     Column(at, key.attname) in columns && KeysLoaded(c, columns, at + [path[0]], key.related, path[1..]))
  }

  /** What hints may break: a forced join must be a chain of forward relations of the model that is
      queried, a forced prefetch a path of relations, and no lookup may come back with a query of its
      own. */
  ghost predicate Accepted(c: Catalog, plan: Plan, only: bool) {
    && (forall lookup | lookup in plan.forcedSelect :: ModelAt(c, plan.model, lookup).Some?)
    && (forall lookup | lookup in plan.forcedPrefetch :: Fetchable(c, plan.model, lookup))
    && (forall entry | entry in plan.prefetch ::
        LookUp(plan.prefetch, only, entry.0) != Clash && Accepted(c, entry.1, only))
  }

  /** The planner's own joins are chains too, and a query that restricts its columns defers no key
      that its joins follow. */
  ghost predicate JoinsHold(c: Catalog, plan: Plan, only: bool) {
    && (forall lookup | lookup in plan.select :: ModelAt(c, plan.model, lookup).Some?)
    && (Restricted(plan, only) ==>
          forall lookup | lookup in plan.select || lookup in plan.forcedSelect ::
            JoinAllowed(c, plan.columns, [], plan.model, lookup))
    && (forall entry | entry in plan.prefetch :: JoinsHold(c, entry.1, only))
  }

  /** The database layer runs the query and those it prefetches. */
  ghost predicate Runs(c: Catalog, plan: Plan, only: bool) {
    Accepted(c, plan, only) && JoinsHold(c, plan, only)
  }

  // --- The planner's own joins hold -------------------------------------------------------------------

  ghost predicate SelfContained(c: Catalog, plan: Plan) {
    && (forall lookup | lookup in plan.select :: KeysLoaded(c, plan.columns, [], plan.model, lookup))
    && (plan.exact ==> plan.forcedSelect == [])
    && (forall entry | entry in plan.prefetch :: SelfContained(c, entry.1))
  }

  lemma {:induction false} KeysMakeAChain(c: Catalog, columns: seq<Column>, at: Path, model: Model, path: Path)
    requires KeysLoaded(c, columns, at, model, path)
    ensures ModelAt(c, model, path).Some? && JoinAllowed(c, columns, at, model, path)
    decreases |path|
  {
    if path != [] {
      KeysMakeAChain(c, columns, at + [path[0]], FieldOf(c, model, path[0]).value.related, path[1..]);
    }
  }

  lemma {:induction false} KeysStay(c: Catalog, columns: seq<Column>, more: seq<Column>, at: Path, model: Model,
                                    path: Path)
    requires KeysLoaded(c, columns, at, model, path) && columns <= more
    ensures KeysLoaded(c, more, at, model, path)
    decreases |path|
  {
    if path != [] { KeysStay(c, columns, more, at + [path[0]], FieldOf(c, model, path[0]).value.related, path[1..]); }
  }

  lemma {:induction false} PathExtends(c: Catalog, model: Model, path: Path, end: Model, attr: Attr)
    requires ModelAt(c, model, path) == Some(end) && IsForward(c, end, attr)
    ensures ModelAt(c, model, path + [attr]) == Some(FieldOf(c, end, attr).value.related)
    decreases |path|
  {
    if path == [] {
      assert (path + [attr])[1..] == [];
    } else {
      assert (path + [attr])[1..] == path[1..] + [attr];
      PathExtends(c, FieldOf(c, model, path[0]).value.related, path[1..], end, attr);
    }
  }

  lemma {:induction false} KeysExtend(c: Catalog, columns: seq<Column>, at: Path, model: Model, path: Path, end: Model,
                                      attr: Attr)
    requires KeysLoaded(c, columns, at, model, path) && ModelAt(c, model, path) == Some(end)
    requires IsForward(c, end, attr) && Column(at + path, FieldOf(c, end, attr).value.attname) in columns
    ensures KeysLoaded(c, columns, at, model, path + [attr])
    decreases |path|
  {
    if path == [] {
      assert at + path == at && (path + [attr])[1..] == [];
    } else {
      assert at + path == (at + [path[0]]) + path[1..] && (path + [attr])[1..] == path[1..] + [attr];
      KeysExtend(c, columns, at + [path[0]], FieldOf(c, model, path[0]).value.related, path[1..], end, attr);
    }
  }

  lemma MoreColumns(c: Catalog, p: Plan, q: Plan)
    requires SelfContained(c, p) && q.model == p.model && q.select == p.select && p.columns <= q.columns
    requires (q.exact ==> q.forcedSelect == []) && forall entry | entry in q.prefetch :: SelfContained(c, entry.1)
    ensures SelfContained(c, q)
  {
    forall lookup | lookup in q.select ensures KeysLoaded(c, q.columns, [], q.model, lookup) {
      KeysStay(c, p.columns, q.columns, [], p.model, lookup);
    }
  }

  lemma {:induction false} CollectIsSelfContained(c: Catalog, plan: Plan, model: Model, schema: Schema, prefix: Path,
                                                  depth: nat, expand: set<string>)
    requires depth < MAX_DEPTH && SelfContained(c, plan)
    requires KeysLoaded(c, plan.columns, [], plan.model, prefix) && ModelAt(c, plan.model, prefix) == Some(model)
    ensures SelfContained(c, Collect(c, plan, model, schema, prefix, depth, expand))
    decreases MAX_DEPTH - depth, 3, 0
  {
    var p := plan.(columns := plan.columns + [Column(prefix, KeyOf(c, model))]);
    MoreColumns(c, plan, p);
    KeysStay(c, plan.columns, p.columns, [], plan.model, prefix);
    FieldsAreSelfContained(c, p, model, FieldsOf(c, schema), prefix, depth, expand);
  }

  lemma {:induction false} FieldsAreSelfContained(c: Catalog, plan: Plan, model: Model, infos: seq<Info>, prefix: Path,
                                                  depth: nat, expand: set<string>)
    requires depth < MAX_DEPTH && SelfContained(c, plan)
    requires KeysLoaded(c, plan.columns, [], plan.model, prefix) && ModelAt(c, plan.model, prefix) == Some(model)
    ensures SelfContained(c, CollectFields(c, plan, model, infos, prefix, depth, expand))
    decreases MAX_DEPTH - depth, 2, |infos|
  {
    if infos != [] {
      var p := CollectField(c, plan, model, infos[0], prefix, depth, expand);
      FieldIsSelfContained(c, plan, model, infos[0], prefix, depth, expand);
      FieldGrows(c, plan, model, infos[0], prefix, depth, expand);
      KeysStay(c, plan.columns, p.columns, [], plan.model, prefix);
      FieldsAreSelfContained(c, p, model, infos[1..], prefix, depth, expand);
    }
  }

  lemma {:induction false} FieldIsSelfContained(c: Catalog, plan: Plan, model: Model, info: Info, prefix: Path,
                                                depth: nat, expand: set<string>)
    requires depth < MAX_DEPTH && SelfContained(c, plan)
    requires KeysLoaded(c, plan.columns, [], plan.model, prefix) && ModelAt(c, plan.model, prefix) == Some(model)
    ensures SelfContained(c, CollectField(c, plan, model, info, prefix, depth, expand))
    decreases MAX_DEPTH - depth, 1, 0
  {
    var attr, q := info.attribute, CollectField(c, plan, model, info, prefix, depth, expand);
    match FieldOf(c, model, attr)
    case None =>
      HintsOnlyForce(c, plan.(exact := false), model, info.hints);
      MoreColumns(c, plan, q);
    case Some(Scalar) => MoreColumns(c, plan, q);
    case Some(Forward(related, attname)) =>
      var p := plan.(columns := plan.columns + [Column(prefix, attname)]);
      MoreColumns(c, plan, p);
      if Nests(info, expand, depth) { JoinIsSelfContained(c, p, model, related, attname, info, prefix, depth); }
    case Some(many) =>
      if Folded(info, expand) {
        MoreColumns(c, plan, q);
      } else {
        ChildIsSelfContained(c, many, info, depth, expand);
        forall entry | entry in q.prefetch ensures SelfContained(c, entry.1) {
          assert entry in plan.prefetch || entry.1 == ChildPlan(c, many, info, depth, expand);
        }
        MoreColumns(c, plan, q);
      }
  }

  lemma {:induction false} JoinIsSelfContained(c: Catalog, p: Plan, model: Model, related: Model, attname: Attr,
                                               info: Info, prefix: Path, depth: nat)
    requires depth + 1 < MAX_DEPTH && SelfContained(c, p) && info.nested.Some?
    requires FieldOf(c, model, info.attribute) == Some(Forward(related, attname)) && p.columns != []
    requires p.columns[|p.columns| - 1] == Column(prefix, attname)
    requires KeysLoaded(c, p.columns[..|p.columns| - 1], [], p.model, prefix)
      && ModelAt(c, p.model, prefix) == Some(model)
    ensures SelfContained(c,
                          Collect(c, p.(select := p.select + [prefix + [info.attribute]]), related, info.nested.value,
                                     prefix + [info.attribute], depth + 1, {}))
    decreases MAX_DEPTH - depth, 0, 0
  {
    var path := prefix + [info.attribute];
    var q := p.(select := p.select + [path]);
    KeysStay(c, p.columns[..|p.columns| - 1], p.columns, [], p.model, prefix);
    assert [] + prefix == prefix && Column(prefix, attname) in p.columns;
    KeysExtend(c, p.columns, [], p.model, prefix, model, info.attribute);
    PathExtends(c, p.model, prefix, model, info.attribute);
    forall lookup | lookup in q.select ensures KeysLoaded(c, q.columns, [], q.model, lookup) {
      assert lookup in p.select || lookup == path;
    }
    CollectIsSelfContained(c, q, related, info.nested.value, path, depth + 1, {});
  }

  lemma {:induction false} ChildIsSelfContained(c: Catalog, many: Field, info: Info, depth: nat, expand: set<string>)
    requires depth < MAX_DEPTH && ToMany(many)
    ensures SelfContained(c, ChildPlan(c, many, info, depth, expand))
    decreases MAX_DEPTH - depth, 0, 0
  {
    if Nests(info, expand, depth) {
      CollectIsSelfContained(c, NewChild(many), many.related, info.nested.value, [], depth + 1, {});
    }
  }

  lemma {:induction false} SelfContainedHolds(c: Catalog, plan: Plan, only: bool)
    requires SelfContained(c, plan)
    ensures JoinsHold(c, plan, only)
    decreases plan
  {
    forall lookup | lookup in plan.select
      ensures ModelAt(c, plan.model, lookup).Some? && JoinAllowed(c, plan.columns, [], plan.model, lookup)
    {
      KeysMakeAChain(c, plan.columns, [], plan.model, lookup);
    }
    forall entry | entry in plan.prefetch ensures JoinsHold(c, entry.1, only) {
      SelfContainedHolds(c, entry.1, only);
    }
  }

  /** When columns are restricted, the caller's hints that become joins follow no deferred key. */
  ghost predicate HintsKeepKeys(c: Catalog, plan: Plan, only: bool, hints: seq<Path>) {
    Restricted(plan, only) ==>
      forall hint | hint in hints && hint != [] && IsForward(c, plan.model, hint[0]) ::
        JoinAllowed(c, plan.columns, [], plan.model, hint)
  }

  /** A query plan runs if and only if what was forced is accepted and the caller's hints follow no
      deferred key: the joins that the planner derives never fail, at any level. */
  lemma PlanRunsExactly(c: Catalog, model: Model, schema: Schema, expand: set<string>, hints: seq<Path>, only: bool)
    ensures var plan := QueryPlanOf(c, model, schema, expand, hints);
      Runs(c, plan, only) <==> Accepted(c, plan, only) && HintsKeepKeys(c, plan, only, hints)
  {
    var derived, plan := Collect(c, NewPlan(model), model, schema, [], 0, expand),
      QueryPlanOf(c, model, schema, expand, hints);
    CollectIsSelfContained(c, NewPlan(model), model, schema, [], 0, expand);
    CollectGrows(c, NewPlan(model), model, schema, [], 0, expand);
    SelfContainedHolds(c, derived, only);
    HintsOnlyForce(c, derived, model, hints);
    if Restricted(plan, only) {
      assert derived.exact && derived.forcedSelect == [];
      forall hint | hint in hints && hint != [] && IsForward(c, model, hint[0]) ensures hint in plan.forcedSelect {
        assert Recorded(c, plan, model, hint);
      }
    }
  }

  // --- Which plans load what is rendered ----------------------------------------------------------------

  /** What a plan must satisfy besides what collecting guarantees: a resolver's declared paths are
      loaded from where it reads them, and a relation that was looked up more than once has its own
      query or whole rows. */
  ghost predicate Serves(c: Catalog, v: View, only: bool, model: Model, schema: Schema, depth: nat, expand: set<string>)
    requires depth < MAX_DEPTH
    decreases MAX_DEPTH - depth, 1
  {
    forall info | info in FieldsOf(c, schema) :: ServesField(c, v, only, model, info, depth, expand)
  }

  ghost predicate ServesField(c: Catalog, v: View, only: bool, model: Model, info: Info, depth: nat,
                              expand: set<string>)
    requires depth < MAX_DEPTH
    decreases MAX_DEPTH - depth, 0
  {
    match FieldOf(c, model, info.attribute)
    case None => forall hint | hint in info.hints :: CanRead(c, v, only, model, hint)
    case Some(Scalar) => true
    case Some(Forward(related, _)) =>
      Nests(info, expand, depth) ==>
        Serves(c, View(v.plan, v.at + [info.attribute], Through(v.extra, info.attribute)), only, related,
               info.nested.value, depth + 1, {})
    case Some(many) =>
      Folded(info, expand) ||
      match LookUp(v.plan.prefetch, only, v.at + [info.attribute])
      case Absent => false
      case Clash => false
      case Once(first) =>
        if first != ChildPlan(c, many, info, depth, expand) then
          HasMany(c, v, only, info.attribute, many) && IsWhole(c, View(first, [], []), only, many.related)
        else
          Nests(info, expand, depth) ==>
            Serves(c, View(first, [], first.forcedPrefetch + Through(v.extra, info.attribute)), only, many.related,
                   info.nested.value, depth + 1, {})
  }

  lemma {:induction false} LookUpFinds(prefetch: seq<(Path, Plan)>, only: bool, path: Path, child: Plan)
    requires (path, child) in prefetch
    ensures LookUp(prefetch, only, path) != Absent
    ensures LookUp(prefetch, only, path).Once? ==> LookUp(prefetch, only, path).plan == child || IsBare(child, only)
  {
    if prefetch[0].0 != path {
      LookUpFinds(prefetch[1..], only, path, child);
    } else {
      assert prefetch == [prefetch[0]] + prefetch[1..];
      assert (path, child) == prefetch[0] || (path, child) in prefetch[1..];
      assert (path, child).0 == path && (path, child).1 == child;
    }
  }

  /** A schema whose own plan is bare asks for nothing but whole rows. */
  lemma BareSchemaIsSupplied(c: Catalog, many: Field, info: Info, depth: nat, expand: set<string>, v: View, only: bool)
    requires depth < MAX_DEPTH && ToMany(many) && Nests(info, expand, depth)
    requires IsBare(ChildPlan(c, many, info, depth, expand), only) && IsWhole(c, v, only, many.related)
    ensures Supplies(c, v, only, many.related, info.nested.value, depth + 1, {})
  {
    var own := ChildPlan(c, many, info, depth, expand);
    ChildCovers(c, many, info, depth, expand);
    forall field | field in FieldsOf(c, info.nested.value)
      ensures SuppliesField(c, v, only, many.related, field, depth + 1, {})
    {
      assert Covers(c, own, many.related, field, [], depth + 1, {});
      if FieldOf(c, many.related, field.attribute).None? {
        forall hint | hint in field.hints ensures CanRead(c, v, only, many.related, hint) {
          assert Recorded(c, own, many.related, hint);
        }
      }
    }
  }

  predicate ReadsWholeRows(c: Catalog, model: Model, info: Info, expand: set<string>) {
    FieldOf(c, model, info.attribute).None? || (IsToMany(c, model, info.attribute) && Folded(info, expand))
  }

  lemma {:induction false} InexactFieldsReadWholeRows(c: Catalog, plan: Plan, model: Model, infos: seq<Info>,
                                                      prefix: Path, depth: nat, expand: set<string>)
    requires depth < MAX_DEPTH && plan.exact
    requires var q := CollectFields(c, plan, model, infos, prefix, depth, expand); !q.exact && q.select == []
    ensures exists info :: info in infos && ReadsWholeRows(c, model, info, expand)
    decreases |infos|
  {
    var p := CollectField(c, plan, model, infos[0], prefix, depth, expand);
    FieldsGrow(c, p, model, infos[1..], prefix, depth, expand);
    if p.exact {
      InexactFieldsReadWholeRows(c, p, model, infos[1..], prefix, depth, expand);
      var info :| info in infos[1..] && ReadsWholeRows(c, model, info, expand);
      assert info in infos;
    } else {
      InexactFieldReadsWholeRows(c, plan, model, infos[0], prefix, depth, expand);
      assert infos[0] in infos;
    }
  }

  lemma InexactFieldReadsWholeRows(c: Catalog, plan: Plan, model: Model, info: Info, prefix: Path, depth: nat,
                                   expand: set<string>)
    requires depth < MAX_DEPTH && plan.exact
    requires var q := CollectField(c, plan, model, info, prefix, depth, expand); !q.exact && q.select == []
    ensures ReadsWholeRows(c, model, info, expand)
  {
    var attr := info.attribute;
    match FieldOf(c, model, attr)
    case None =>
    case Some(Scalar) =>
    case Some(Forward(related, attname)) =>
      if Nests(info, expand, depth) {
        var p := plan.(columns := plan.columns + [Column(prefix, attname)], select := plan.select + [prefix + [attr]]);
        CollectGrows(c, p, related, info.nested.value, prefix + [attr], depth + 1, {});
      }
    case Some(many) =>
  }

  /** A bare plan that is not restricted because its schema reads whole rows needs them from any
      other plan that serves it. */
  lemma BareSchemaNeedsWholeRows(c: Catalog, many: Field, info: Info, depth: nat, expand: set<string>, v: View,
                                 only: bool)
    requires depth < MAX_DEPTH && ToMany(many) && Nests(info, expand, depth)
    requires IsBare(ChildPlan(c, many, info, depth, expand), only)
    requires Supplies(c, v, only, many.related, info.nested.value, depth + 1, {})
    ensures IsWhole(c, v, only, many.related)
  {
    var start := NewChild(many);
    var p := start.(columns := start.columns + [Column([], KeyOf(c, many.related))]);
    if only {
      var own := ChildPlan(c, many, info, depth, expand);
      assert own == Collect(c, start, many.related, info.nested.value, [], depth + 1, {});
      assert own == CollectFields(c, p, many.related, FieldsOf(c, info.nested.value), [], depth + 1, {});
      assert !own.exact && own.select == [];
      InexactFieldsReadWholeRows(c, p, many.related, FieldsOf(c, info.nested.value), [], depth + 1, {});
      var field :| field in FieldsOf(c, info.nested.value) && ReadsWholeRows(c, many.related, field, {});
      assert SuppliesField(c, v, only, many.related, field, depth + 1, {});
    }
  }

  lemma {:induction false} SuppliesExactlyWhenServes(c: Catalog, v: View, only: bool, model: Model, schema: Schema,
                                                     depth: nat, expand: set<string>)
    requires depth < MAX_DEPTH && CoversSchema(c, v.plan, model, schema, v.at, depth, expand)
    ensures Supplies(c, v, only, model, schema, depth, expand) <==> Serves(c, v, only, model, schema, depth, expand)
    decreases MAX_DEPTH - depth, 2
  {
    forall info | info in FieldsOf(c, schema)
      ensures SuppliesField(c, v, only, model, info, depth, expand)
        <==> ServesField(c, v, only, model, info, depth, expand)
    {
      assert Covers(c, v.plan, model, info, v.at, depth, expand);
      FieldSuppliesExactly(c, v, only, model, info, depth, expand);
    }
  }

  lemma {:induction false} FieldSuppliesExactly(c: Catalog, v: View, only: bool, model: Model, info: Info, depth: nat,
                                                expand: set<string>)
    requires depth < MAX_DEPTH && Covers(c, v.plan, model, info, v.at, depth, expand)
    ensures SuppliesField(c, v, only, model, info, depth, expand)
      <==> ServesField(c, v, only, model, info, depth, expand)
    decreases MAX_DEPTH - depth, 1
  {
    match FieldOf(c, model, info.attribute)
    case None =>
    case Some(Scalar) =>
    case Some(Forward(related, attname)) =>
      if Nests(info, expand, depth) {
        var path := v.at + [info.attribute];
        assert IsJoined(v.plan, path) by { assert path in v.plan.select && path <= path; }
        var next := View(v.plan, path, Through(v.extra, info.attribute));
        SuppliesExactlyWhenServes(c, next, only, related, info.nested.value, depth + 1, {});
      }
    case Some(many) =>
      if !Folded(info, expand) { ManySuppliesExactly(c, v, only, model, many, info, depth, expand); }
  }

  lemma {:induction false} ManySuppliesExactly(c: Catalog, v: View, only: bool, model: Model, many: Field, info: Info,
                                               depth: nat, expand: set<string>)
    requires depth < MAX_DEPTH
    requires FieldOf(c, model, info.attribute) == Some(many) && ToMany(many) && !Folded(info, expand)
    requires (v.at + [info.attribute], ChildPlan(c, many, info, depth, expand)) in v.plan.prefetch
    ensures SuppliesField(c, v, only, model, info, depth, expand)
      <==> ServesField(c, v, only, model, info, depth, expand)
    decreases MAX_DEPTH - depth, 0
  {
    var own := ChildPlan(c, many, info, depth, expand);
    ChildCovers(c, many, info, depth, expand);
    LookUpFinds(v.plan.prefetch, only, v.at + [info.attribute], own);
    match LookUp(v.plan.prefetch, only, v.at + [info.attribute])
    case Clash =>
    case Once(first) =>
      var next := View(first, [], first.forcedPrefetch + Through(v.extra, info.attribute));
      if first == own {
        if Nests(info, expand, depth) {
          SuppliesExactlyWhenServes(c, next, only, many.related, info.nested.value, depth + 1, {});
        }
      } else if Nests(info, expand, depth) {
        if IsWhole(c, next, only, many.related) {
          BareSchemaIsSupplied(c, many, info, depth, expand, next, only);
        }
        if Supplies(c, next, only, many.related, info.nested.value, depth + 1, {}) {
          BareSchemaNeedsWholeRows(c, many, info, depth, expand, next, only);
        }
      }
  }

  // --- The planner is right exactly when ------------------------------------------------------------------

  /** The query runs, and every object of every store renders from what it loaded as from full rows. */
  ghost predicate RendersAlike(c: Catalog, plan: Plan, only: bool, model: Model, schema: Schema, expand: set<string>) {
    Runs(c, plan, only) && Faithful(c, RootView(plan), only, model, schema, expand)
  }

  /** A query plan, with or without hints of the caller and with or without restricting columns, is
      right about its schema if and only if what was forced is accepted, the caller's hints follow no
      deferred key, declared paths are loaded where they are read, and relations that were looked up more than
      once have their own query or whole rows. */
  lemma PlanRendersExactlyWhenItServes(c: Catalog, model: Model, schema: Schema, expand: set<string>, hints: seq<Path>,
                                       only: bool)
    ensures var plan := QueryPlanOf(c, model, schema, expand, hints);
      RendersAlike(c, plan, only, model, schema, expand) <==>
        && Accepted(c, plan, only) && HintsKeepKeys(c, plan, only, hints)
        && Serves(c, RootView(plan), only, model, schema, 0, expand)
  {
    var plan := QueryPlanOf(c, model, schema, expand, hints);
    PlanRunsExactly(c, model, schema, expand, hints, only);
    QueryPlanCovers(c, model, schema, expand, hints);
    FaithfulExactlyWhenSupplied(c, RootView(plan), only, model, schema, expand);
    SuppliesExactlyWhenServes(c, RootView(plan), only, model, schema, 0, expand);
  }
}
