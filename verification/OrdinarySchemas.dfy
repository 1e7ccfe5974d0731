/** Schemas the planner is right about, read off the schemas alone, and three it is wrong about. */
module OrdinarySchemas {
  import opened QueryPlan
  import opened PlanRendering
  import opened PlanExactness

  /** The field is rendered through its relation. */
  predicate Opens(c: Catalog, model: Model, info: Info, depth: nat, expand: set<string>) {
    (IsForward(c, model, info.attribute) && Nests(info, expand, depth))
      || (IsToMany(c, model, info.attribute) && !Folded(info, expand))
  }

  ghost predicate OpensOnce(c: Catalog, model: Model, infos: seq<Info>, depth: nat, expand: set<string>) {
    forall i, j | 0 <= i < j < |infos| && Opens(c, model, infos[i], depth, expand)
      && Opens(c, model, infos[j], depth, expand) ::
      infos[i].attribute != infos[j].attribute
  }

  ghost predicate IsOpened(c: Catalog, model: Model, infos: seq<Info>, depth: nat, expand: set<string>, attr: Attr) {
    exists info :: info in infos && Opens(c, model, info, depth, expand) && info.attribute == attr
  }

  /** A declared path that can be loaded: forward all the way, or starting with a to-many relation
      that no field is rendered through. A name that is no field is ignored. */
  ghost predicate GoodHint(c: Catalog, model: Model, infos: seq<Info>, depth: nat, expand: set<string>, hint: Path) {
    hint == [] || FieldOf(c, model, hint[0]).None? ||
    if IsForward(c, model, hint[0]) then ModelAt(c, model, hint).Some?
    else Fetchable(c, model, hint) && !IsOpened(c, model, infos, depth, expand, hint[0])
  }

  /** No relation is rendered through by two fields of a schema, and resolvers declare good paths, none
      of them below a join. Only the schemas that rendering reaches matter. */
  ghost predicate Ordinary(c: Catalog, model: Model, schema: Schema, joined: bool, depth: nat, expand: set<string>)
    requires depth < MAX_DEPTH
    decreases MAX_DEPTH - depth, 1
  {
    && OpensOnce(c, model, FieldsOf(c, schema), depth, expand)
    && forall info | info in FieldsOf(c, schema) :: OrdinaryField(c, model, schema, info, joined, depth, expand)
  }

  ghost predicate OrdinaryField(c: Catalog, model: Model, schema: Schema, info: Info, joined: bool, depth: nat,
                                expand: set<string>)
    requires depth < MAX_DEPTH
    decreases MAX_DEPTH - depth, 0
  {
    match FieldOf(c, model, info.attribute)
    case None =>
      forall hint | hint in info.hints ::
        if joined then hint == [] || FieldOf(c, model, hint[0]).None?
        else GoodHint(c, model, FieldsOf(c, schema), depth, expand, hint)
    case Some(Scalar) => true
    case Some(Forward(related, _)) =>
      Nests(info, expand, depth) ==> Ordinary(c, related, info.nested.value, true, depth + 1, {})
    case Some(many) => Nests(info, expand, depth) ==> Ordinary(c, many.related, info.nested.value, false, depth + 1, {})
  }

  // --- Their plans are neat -------------------------------------------------------------------------------

  /** Every lookup once, and forced ones that lead somewhere. */
  ghost predicate Neat(c: Catalog, plan: Plan) {
    && (forall i, j | 0 <= i < j < |plan.prefetch| :: plan.prefetch[i].0 != plan.prefetch[j].0)
    && (forall lookup | lookup in plan.forcedSelect :: ModelAt(c, plan.model, lookup).Some?)
    && (forall lookup | lookup in plan.forcedPrefetch :: Fetchable(c, plan.model, lookup))
    && (forall entry | entry in plan.prefetch :: Neat(c, entry.1))
  }

  ghost predicate Below(c: Catalog, model: Model, prefix: Path, infos: seq<Info>, depth: nat, expand: set<string>,
                        lookup: Path)
  {
    exists info :: info in infos && Opens(c, model, info, depth, expand) && prefix + [info.attribute] <= lookup
  }

  /** Only lookups below one of the opened fields of `infos` were added to `p`. */
  ghost predicate AddsBelow(c: Catalog, p: Plan, q: Plan, model: Model, prefix: Path, infos: seq<Info>, depth: nat,
                            expand: set<string>)
  {
    && p.prefetch <= q.prefetch
    && forall i | |p.prefetch| <= i < |q.prefetch| :: Below(c, model, prefix, infos, depth, expand, q.prefetch[i].0)
  }

  ghost predicate NothingBelow(c: Catalog, p: Plan, model: Model, prefix: Path, infos: seq<Info>, depth: nat,
                               expand: set<string>)
  {
    forall entry | entry in p.prefetch :: !Below(c, model, prefix, infos, depth, expand, entry.0)
  }

  lemma {:induction false} CollectIsNeat(c: Catalog, plan: Plan, model: Model, schema: Schema, prefix: Path,
                                         depth: nat, expand: set<string>)
    requires depth < MAX_DEPTH && Neat(c, plan) && (prefix == [] ==> model == plan.model)
    requires Ordinary(c, model, schema, prefix != [], depth, expand)
    requires NothingBelow(c, plan, model, prefix, FieldsOf(c, schema), depth, expand)
    ensures var q := Collect(c, plan, model, schema, prefix, depth, expand);
      Neat(c, q) && AddsBelow(c, plan, q, model, prefix, FieldsOf(c, schema), depth, expand)
    decreases MAX_DEPTH - depth, 3, 0
  {
    var p := plan.(columns := plan.columns + [Column(prefix, KeyOf(c, model))]);
    FieldsAreNeat(c, p, model, schema, FieldsOf(c, schema), prefix, depth, expand);
  }

  lemma {:induction false} FieldsAreNeat(c: Catalog, plan: Plan, model: Model, schema: Schema, infos: seq<Info>,
                                         prefix: Path, depth: nat, expand: set<string>)
    requires depth < MAX_DEPTH && Neat(c, plan) && (prefix == [] ==> model == plan.model)
    requires OpensOnce(c, model, infos, depth, expand)
    requires forall info | info in infos :: OrdinaryField(c, model, schema, info, prefix != [], depth, expand)
    requires NothingBelow(c, plan, model, prefix, infos, depth, expand)
    ensures var q := CollectFields(c, plan, model, infos, prefix, depth, expand);
      Neat(c, q) && AddsBelow(c, plan, q, model, prefix, infos, depth, expand)
    decreases MAX_DEPTH - depth, 2, |infos|
  {
    if infos != [] {
      var p := CollectField(c, plan, model, infos[0], prefix, depth, expand);
      assert OrdinaryField(c, model, schema, infos[0], prefix != [], depth, expand) by { assert infos[0] in infos; }
      forall info | info in infos[1..] ensures OrdinaryField(c, model, schema, info, prefix != [], depth, expand) {
        assert info in infos;
      }
      NothingBelowFirst(c, plan, model, prefix, infos, depth, expand);
      FieldIsNeat(c, plan, model, schema, infos[0], prefix, depth, expand);
      FieldGrows(c, plan, model, infos[0], prefix, depth, expand);
      StillNothingBelow(c, plan, p, model, prefix, infos, depth, expand);
      FieldsAreNeat(c, p, model, schema, infos[1..], prefix, depth, expand);
      AddedTogether(c, plan, p, CollectFields(c, p, model, infos[1..], prefix, depth, expand), model, prefix, infos,
                    depth, expand);
    }
  }

  lemma NothingBelowFirst(c: Catalog, plan: Plan, model: Model, prefix: Path, infos: seq<Info>, depth: nat,
                          expand: set<string>)
    requires infos != [] && NothingBelow(c, plan, model, prefix, infos, depth, expand)
    ensures NothingBelow(c, plan, model, prefix, [infos[0]], depth, expand)
  {
    forall entry | entry in plan.prefetch ensures !Below(c, model, prefix, [infos[0]], depth, expand, entry.0) {
      assert infos[0] in infos;
    }
  }

  lemma AddedTogether(c: Catalog, plan: Plan, p: Plan, q: Plan, model: Model, prefix: Path, infos: seq<Info>,
                      depth: nat, expand: set<string>)
    requires infos != [] && AddsBelow(c, plan, p, model, prefix, [infos[0]], depth, expand)
    requires AddsBelow(c, p, q, model, prefix, infos[1..], depth, expand)
    ensures AddsBelow(c, plan, q, model, prefix, infos, depth, expand)
  {
    forall i | |plan.prefetch| <= i < |q.prefetch|
      ensures Below(c, model, prefix, infos, depth, expand, q.prefetch[i].0)
    {
      if i < |p.prefetch| {
        assert q.prefetch[i] == p.prefetch[i] && Below(c, model, prefix, [infos[0]], depth, expand, p.prefetch[i].0);
        assert infos[0] in infos;
      } else {
        assert Below(c, model, prefix, infos[1..], depth, expand, q.prefetch[i].0);
        assert forall info | info in infos[1..] :: info in infos;
      }
    }
  }

  lemma StillNothingBelow(c: Catalog, plan: Plan, p: Plan, model: Model, prefix: Path, infos: seq<Info>, depth: nat,
                          expand: set<string>)
    requires infos != [] && OpensOnce(c, model, infos, depth, expand)
      && NothingBelow(c, plan, model, prefix, infos, depth, expand)
    requires AddsBelow(c, plan, p, model, prefix, [infos[0]], depth, expand)
    ensures NothingBelow(c, p, model, prefix, infos[1..], depth, expand)
  {
    forall entry | entry in p.prefetch ensures !Below(c, model, prefix, infos[1..], depth, expand, entry.0) {
      var i :| 0 <= i < |p.prefetch| && p.prefetch[i] == entry;
      if i < |plan.prefetch| {
        assert plan.prefetch[i] == entry && !Below(c, model, prefix, infos, depth, expand, entry.0);
        assert forall info | info in infos[1..] :: info in infos;
      } else {
        assert Below(c, model, prefix, [infos[0]], depth, expand, p.prefetch[i].0);
        OneBranch(c, model, prefix, infos, depth, expand, entry.0);
      }
    }
  }

  lemma OneBranch(c: Catalog, model: Model, prefix: Path, infos: seq<Info>, depth: nat, expand: set<string>,
                  lookup: Path)
    requires infos != [] && OpensOnce(c, model, infos, depth, expand)
      && Below(c, model, prefix, [infos[0]], depth, expand, lookup)
    ensures !Below(c, model, prefix, infos[1..], depth, expand, lookup)
  {
    assert Opens(c, model, infos[0], depth, expand) && prefix + [infos[0].attribute] <= lookup;
    assert (prefix + [infos[0].attribute])[|prefix|] == lookup[|prefix|];
    forall info | info in infos[1..] && Opens(c, model, info, depth, expand)
      ensures !(prefix + [info.attribute] <= lookup)
    {
      var j :| 0 <= j < |infos[1..]| && infos[1..][j] == info;
      assert infos[j + 1] == info && infos[0].attribute != infos[j + 1].attribute;
      assert (prefix + [info.attribute])[|prefix|] == info.attribute;
    }
  }

  lemma {:induction false} FieldIsNeat(c: Catalog, plan: Plan, model: Model, schema: Schema, info: Info, prefix: Path,
                                       depth: nat, expand: set<string>)
    requires depth < MAX_DEPTH && Neat(c, plan) && (prefix == [] ==> model == plan.model)
    requires OrdinaryField(c, model, schema, info, prefix != [], depth, expand)
    requires NothingBelow(c, plan, model, prefix, [info], depth, expand)
    ensures var q := CollectField(c, plan, model, info, prefix, depth, expand);
      Neat(c, q) && AddsBelow(c, plan, q, model, prefix, [info], depth, expand)
    decreases MAX_DEPTH - depth, 1, 0
  {
    var attr, q := info.attribute, CollectField(c, plan, model, info, prefix, depth, expand);
    match FieldOf(c, model, attr)
    case None => HintsAreNeat(c, plan.(exact := false), model, schema, info, prefix != [], depth, expand);
    case Some(Scalar) =>
    case Some(Forward(related, attname)) =>
      if Nests(info, expand, depth) { JoinIsNeat(c, plan, model, related, attname, info, prefix, depth, expand); }
    case Some(many) =>
      if !Folded(info, expand) {
        ChildIsNeat(c, many, info, depth, expand);
        assert info in [info] && Opens(c, model, info, depth, expand);
        assert Below(c, model, prefix, [info], depth, expand, prefix + [attr]);
        NeatAppends(c, plan, q, (prefix + [attr], ChildPlan(c, many, info, depth, expand)));
      }
  }

  lemma HintsAreNeat(c: Catalog, plan: Plan, model: Model, schema: Schema, info: Info, joined: bool, depth: nat,
                     expand: set<string>)
    requires depth < MAX_DEPTH && Neat(c, plan) && FieldOf(c, model, info.attribute).None?
      && (!joined ==> model == plan.model)
    requires OrdinaryField(c, model, schema, info, joined, depth, expand)
    ensures Neat(c, ApplyHints(c, plan, model, info.hints))
      && ApplyHints(c, plan, model, info.hints).prefetch == plan.prefetch
  {
    HintsOnlyForce(c, plan, model, info.hints);
  }

  lemma {:induction false} JoinIsNeat(c: Catalog, plan: Plan, model: Model, related: Model, attname: Attr, info: Info,
                                      prefix: Path, depth: nat, expand: set<string>)
    requires depth + 1 < MAX_DEPTH && Neat(c, plan) && info.nested.Some? && Opens(c, model, info, depth, expand)
    requires Ordinary(c, related, info.nested.value, true, depth + 1, {})
    requires NothingBelow(c, plan, model, prefix, [info], depth, expand)
    ensures var joined := plan.(columns := plan.columns + [Column(prefix, attname)],
                                select := plan.select + [prefix + [info.attribute]]);
      var q := Collect(c, joined, related, info.nested.value, prefix + [info.attribute], depth + 1, {});
      Neat(c, q) && AddsBelow(c, plan, q, model, prefix, [info], depth, expand)
    decreases MAX_DEPTH - depth, 0, 0
  {
    var path, infos := prefix + [info.attribute], FieldsOf(c, info.nested.value);
    var joined := plan.(columns := plan.columns + [Column(prefix, attname)], select := plan.select + [path]);
    assert info in [info];
    forall lookup | Below(c, related, path, infos, depth + 1, {}, lookup)
      ensures Below(c, model, prefix, [info], depth, expand, lookup)
    {
      var x :| x in infos && Opens(c, related, x, depth + 1, {}) && path + [x.attribute] <= lookup;
      assert path <= path + [x.attribute];
    }
    CollectIsNeat(c, joined, related, info.nested.value, path, depth + 1, {});
  }

  lemma {:induction false} ChildIsNeat(c: Catalog, many: Field, info: Info, depth: nat, expand: set<string>)
    requires depth < MAX_DEPTH && ToMany(many)
    requires Nests(info, expand, depth) ==> Ordinary(c, many.related, info.nested.value, false, depth + 1, {})
    ensures var child := ChildPlan(c, many, info, depth, expand);
      && Neat(c, child) && child.model == many.related
      && (Nests(info, expand, depth) ==>
          AddsBelow(c, NewPlan(many.related), child, many.related, [], FieldsOf(c, info.nested.value), depth + 1, {}))
    decreases MAX_DEPTH - depth, 0, 0
  {
    if Nests(info, expand, depth) {
      CollectIsNeat(c, NewChild(many), many.related, info.nested.value, [], depth + 1, {});
      CollectGrows(c, NewChild(many), many.related, info.nested.value, [], depth + 1, {});
    }
  }

  lemma NeatAppends(c: Catalog, p: Plan, q: Plan, added: (Path, Plan))
    requires Neat(c, p) && Neat(c, added.1) && q == p.(prefetch := p.prefetch + [added])
    requires forall entry | entry in p.prefetch :: entry.0 != added.0
    ensures Neat(c, q)
  {
    forall i, j | 0 <= i < j < |q.prefetch| ensures q.prefetch[i].0 != q.prefetch[j].0 {
      assert q.prefetch[i] == p.prefetch[i] && p.prefetch[i] in p.prefetch;
    }
  }

  lemma {:induction false} SeenOnce(prefetch: seq<(Path, Plan)>, only: bool, path: Path, child: Plan)
    requires forall i, j | 0 <= i < j < |prefetch| :: prefetch[i].0 != prefetch[j].0
    requires (path, child) in prefetch
    ensures LookUp(prefetch, only, path) == Once(child)
  {
    assert prefetch == [prefetch[0]] + prefetch[1..];
    if prefetch[0].0 != path {
      SeenOnce(prefetch[1..], only, path, child);
    } else {
      forall entry | entry in prefetch[1..] ensures entry.0 != path {
        var j :| 0 <= j < |prefetch[1..]| && prefetch[1..][j] == entry;
        assert prefetch[j + 1] == entry;
      }
      assert (path, child).0 == path && (path, child).1 == child;
    }
  }

  /** A neat plan is accepted, whether or not columns are restricted. */
  lemma {:induction false} NeatIsAccepted(c: Catalog, plan: Plan, only: bool)
    requires Neat(c, plan)
    ensures Accepted(c, plan, only)
    decreases plan
  {
    forall entry | entry in plan.prefetch
      ensures LookUp(plan.prefetch, only, entry.0) != Clash && Accepted(c, entry.1, only)
    {
      assert entry == (entry.0, entry.1);
      SeenOnce(plan.prefetch, only, entry.0, entry.1);
      NeatIsAccepted(c, entry.1, only);
    }
  }

  // --- Their declared paths are loaded ----------------------------------------------------------------------

  /** Rows of a bare query lead wherever a lookup goes on. */
  lemma {:induction false} BareRowsRead(c: Catalog, v: View, only: bool, model: Model, path: Path)
    requires v == WholeRows(model, v.extra) && path in v.extra && Fetchable(c, model, path)
    ensures CanRead(c, v, only, model, path)
    decreases |path|
  {
    if path != [] {
      var relation := FieldOf(c, model, path[0]).value;
      assert path == [path[0]] + path[1..];
      ThroughHolds(v.extra, path[0], path[1..]);
      BareRowsRead(c, WholeRows(relation.related, Through(v.extra, path[0])), only, relation.related, path[1..]);
    }
  }

  /** Joins of a plan that loads whole rows lead wherever they go. */
  lemma {:induction false} JoinedRowsRead(c: Catalog, v: View, only: bool, model: Model, path: Path)
    requires !v.plan.exact && ModelAt(c, model, path).Some? && Joins(v.plan.forcedSelect, v.at + path)
    ensures CanRead(c, v, only, model, path)
    decreases |path|
  {
    if path != [] {
      var next := View(v.plan, v.at + [path[0]], Through(v.extra, path[0]));
      var lookup :| lookup in v.plan.forcedSelect && v.at + path <= lookup;
      assert v.at + path == (v.at + [path[0]]) + path[1..];
      assert v.at + [path[0]] <= lookup && Joins(v.plan.forcedSelect, v.at + [path[0]]);
      JoinedRowsRead(c, next, only, FieldOf(c, model, path[0]).value.related, path[1..]);
    }
  }

  lemma RootHintsAreRead(c: Catalog, v: View, only: bool, model: Model, schema: Schema, depth: nat,
                         expand: set<string>, hint: Path)
    requires v.at == [] && !v.plan.exact && Recorded(c, v.plan, model, hint)
    requires forall lookup | lookup in v.plan.forcedPrefetch :: lookup in v.extra
    requires GoodHint(c, model, FieldsOf(c, schema), depth, expand, hint)
    requires forall entry | entry in v.plan.prefetch :: Below(c, model, [], FieldsOf(c, schema), depth, expand, entry.0)
    ensures CanRead(c, v, only, model, hint)
  {
    if hint != [] && FieldOf(c, model, hint[0]).Some? {
      if IsForward(c, model, hint[0]) {
        assert v.at + hint == hint && hint <= hint;
        JoinedRowsRead(c, v, only, model, hint);
      } else {
        ToManyHintIsRead(c, v, only, model, FieldsOf(c, schema), depth, expand, hint);
      }
    }
  }

  lemma ToManyHintIsRead(c: Catalog, v: View, only: bool, model: Model, infos: seq<Info>, depth: nat,
                         expand: set<string>, hint: Path)
    requires v.at == [] && !v.plan.exact && hint != [] && hint in v.extra
    requires Fetchable(c, model, hint) && IsToMany(c, model, hint[0])
      && !IsOpened(c, model, infos, depth, expand, hint[0])
    requires forall entry | entry in v.plan.prefetch :: Below(c, model, [], infos, depth, expand, entry.0)
    ensures CanRead(c, v, only, model, hint)
  {
    var many := FieldOf(c, model, hint[0]).value;
    assert v.at + [hint[0]] == [hint[0]];
    forall entry | entry in v.plan.prefetch ensures entry.0 != [hint[0]] {
      assert Below(c, model, [], infos, depth, expand, entry.0);
      var info :| info in infos && Opens(c, model, info, depth, expand) && [] + [info.attribute] <= entry.0;
      assert ([] + [info.attribute])[0] == entry.0[0];
    }
    NotSeen(v.plan.prefetch, only, [hint[0]]);
    assert hint == [hint[0]] + hint[1..];
    ThroughHolds(v.extra, hint[0], hint[1..]);
    BareRowsRead(c, WholeRows(many.related, Through(v.extra, hint[0])), only, many.related, hint[1..]);
  }

  lemma {:induction false} OrdinaryServes(c: Catalog, v: View, only: bool, model: Model, schema: Schema, depth: nat,
                                          expand: set<string>)
    requires depth < MAX_DEPTH && Neat(c, v.plan) && CoversSchema(c, v.plan, model, schema, v.at, depth, expand)
    requires Ordinary(c, model, schema, v.at != [], depth, expand)
    requires forall lookup | lookup in v.plan.forcedPrefetch && v.at == [] :: lookup in v.extra
    requires forall entry | entry in v.plan.prefetch && v.at == [] ::
      Below(c, model, [], FieldsOf(c, schema), depth, expand, entry.0)
    ensures Serves(c, v, only, model, schema, depth, expand)
    decreases MAX_DEPTH - depth, 1
  {
    forall info | info in FieldsOf(c, schema) ensures ServesField(c, v, only, model, info, depth, expand) {
      assert Covers(c, v.plan, model, info, v.at, depth, expand)
        && OrdinaryField(c, model, schema, info, v.at != [], depth, expand);
      var attr := info.attribute;
      match FieldOf(c, model, attr)
      case None =>
        forall hint | hint in info.hints ensures CanRead(c, v, only, model, hint) {
          if v.at == [] { RootHintsAreRead(c, v, only, model, schema, depth, expand, hint); }
        }
      case Some(Scalar) =>
      case Some(Forward(related, attname)) =>
        if Nests(info, expand, depth) {
          OrdinaryServes(c, View(v.plan, v.at + [attr], Through(v.extra, attr)), only, related, info.nested.value,
                         depth + 1, {});
        }
      case Some(many) =>
        if !Folded(info, expand) { OrdinaryServesMany(c, v, only, model, many, info, depth, expand); }
    }
  }

  /** A relation that was looked up once is served by its own query. */
  lemma OwnQueryServes(c: Catalog, v: View, only: bool, model: Model, many: Field, info: Info, depth: nat,
                       expand: set<string>)
    requires depth < MAX_DEPTH && Neat(c, v.plan)
    requires FieldOf(c, model, info.attribute) == Some(many) && ToMany(many)
    requires (v.at + [info.attribute], ChildPlan(c, many, info, depth, expand)) in v.plan.prefetch
    requires var child := ChildPlan(c, many, info, depth, expand);
      Nests(info, expand, depth) ==>
        Serves(c, View(child, [], child.forcedPrefetch + Through(v.extra, info.attribute)), only, many.related,
               info.nested.value, depth + 1, {})
    ensures ServesField(c, v, only, model, info, depth, expand)
  {
    SeenOnce(v.plan.prefetch, only, v.at + [info.attribute], ChildPlan(c, many, info, depth, expand));
  }

  lemma {:induction false} OrdinaryServesMany(c: Catalog, v: View, only: bool, model: Model, many: Field, info: Info,
                                              depth: nat, expand: set<string>)
    requires depth < MAX_DEPTH && Neat(c, v.plan) && !Folded(info, expand)
    requires FieldOf(c, model, info.attribute) == Some(many) && ToMany(many)
    requires (v.at + [info.attribute], ChildPlan(c, many, info, depth, expand)) in v.plan.prefetch
    requires Nests(info, expand, depth) ==> Ordinary(c, many.related, info.nested.value, false, depth + 1, {})
    ensures ServesField(c, v, only, model, info, depth, expand)
    decreases MAX_DEPTH - depth, 0
  {
    var child := ChildPlan(c, many, info, depth, expand);
    ChildIsNeat(c, many, info, depth, expand);
    ChildCovers(c, many, info, depth, expand);
    if Nests(info, expand, depth) {
      forall entry | entry in child.prefetch
        ensures Below(c, many.related, [], FieldsOf(c, info.nested.value), depth + 1, {}, entry.0)
      {
        var i :| 0 <= i < |child.prefetch| && child.prefetch[i] == entry;
      }
      OrdinaryServes(c, View(child, [], child.forcedPrefetch + Through(v.extra, info.attribute)), only, many.related,
                     info.nested.value, depth + 1, {});
    }
    OwnQueryServes(c, v, only, model, many, info, depth, expand);
  }

  /** Query plans preserve meaning, recursive schemas included: for every ordinary schema the query
      runs and every object of every store renders from what it loaded as from full rows. */
  lemma OrdinarySchemasRenderAlike(c: Catalog, model: Model, schema: Schema, expand: set<string>, only: bool)
    requires Ordinary(c, model, schema, false, 0, expand)
    ensures RendersAlike(c, QueryPlanOf(c, model, schema, expand, []), only, model, schema, expand)
  {
    var plan := QueryPlanOf(c, model, schema, expand, []);
    CollectIsNeat(c, NewPlan(model), model, schema, [], 0, expand);
    NeatIsAccepted(c, plan, only);
    QueryPlanCovers(c, model, schema, expand, []);
    forall entry | entry in plan.prefetch ensures Below(c, model, [], FieldsOf(c, schema), 0, expand, entry.0) {
      var i :| 0 <= i < |plan.prefetch| && plan.prefetch[i] == entry;
    }
    OrdinaryServes(c, RootView(plan), only, model, schema, 0, expand);
    PlanRendersExactlyWhenItServes(c, model, schema, expand, [], only);
  }

  // --- The depth bound --------------------------------------------------------------------------------------

  /** Nothing is nested at depth `limit` or deeper. */
  ghost predicate Shallow(c: Catalog, model: Model, schema: Schema, depth: nat, limit: nat, expand: set<string>)
    requires depth < limit
    decreases limit - depth
  {
    forall info | info in FieldsOf(c, schema) && info.nested.Some? && !Folded(info, expand) ::
      match FieldOf(c, model, info.attribute)
      case None => true
      case Some(Scalar) => true
      case Some(field) => depth + 1 < limit && Shallow(c, field.related, info.nested.value, depth + 1, limit, {})
  }

  lemma {:induction false} ShallowRendersWhole(c: Catalog, db: Store, model: Model, pk: nat, schema: Schema, depth: nat,
                                               limit: nat, further: nat, expand: set<string>)
    requires depth < limit <= further && Shallow(c, model, schema, depth, limit, expand)
    ensures Render(c, db, model, pk, schema, depth, further, expand)
      == Render(c, db, model, pk, schema, depth, limit, expand)
    decreases limit - depth, 1, 0
  {
    ShallowFieldsRenderWhole(c, db, model, pk, schema, FieldsOf(c, schema), depth, limit, further, expand);
  }

  lemma {:induction false} ShallowFieldsRenderWhole(c: Catalog, db: Store, model: Model, pk: nat, schema: Schema,
                                                    infos: seq<Info>, depth: nat, limit: nat, further: nat,
                                                      expand: set<string>)
    requires depth < limit <= further && Shallow(c, model, schema, depth, limit, expand)
    requires forall info | info in infos :: info in FieldsOf(c, schema)
    ensures RenderFields(c, db, model, pk, infos, depth, further, expand)
      == RenderFields(c, db, model, pk, infos, depth, limit, expand)
    decreases limit - depth, 0, |infos|
  {
    if infos != [] {
      ShallowFieldRendersWhole(c, db, model, pk, schema, infos[0], depth, limit, further, expand);
      ShallowFieldsRenderWhole(c, db, model, pk, schema, infos[1..], depth, limit, further, expand);
    }
  }

  lemma {:induction false} ShallowFieldRendersWhole(c: Catalog, db: Store, model: Model, pk: nat, schema: Schema,
                                                    info: Info, depth: nat, limit: nat, further: nat,
                                                      expand: set<string>)
    requires depth < limit <= further && Shallow(c, model, schema, depth, limit, expand) && info in FieldsOf(c, schema)
    ensures RenderField(c, db, model, pk, info, depth, further, expand)
      == RenderField(c, db, model, pk, info, depth, limit, expand)
    decreases limit - depth, 0, 0
  {
    match FieldOf(c, model, info.attribute)
    case None =>
    case Some(Scalar) =>
    case Some(Forward(related, attname)) =>
      var key := CellOf(db, model, pk, attname);
      if info.nested.Some? && !Folded(info, expand) && key.Some? {
        ShallowRendersWhole(c, db, related, key.value, info.nested.value, depth + 1, limit, further, {});
      }
    case Some(many) =>
      var keys := OthersOf(db, model, info.attribute, pk);
      if info.nested.Some? && !Folded(info, expand) {
        forall i | 0 <= i < |keys|
          ensures Render(c, db, many.related, keys[i], info.nested.value, depth + 1, further, {})
               == Render(c, db, many.related, keys[i], info.nested.value, depth + 1, limit, {})
        {
          ShallowRendersWhole(c, db, many.related, keys[i], info.nested.value, depth + 1, limit, further, {});
        }
      }
  }

  /** A schema nested within the planner's depth is rendered to its very end from what the plan
      loaded. */
  lemma ShallowSchemasRenderWhole(c: Catalog, db: Store, model: Model, pk: nat, schema: Schema, expand: set<string>,
                                  only: bool, further: nat)
    requires Ordinary(c, model, schema, false, 0, expand) && Shallow(c, model, schema, 0, MAX_DEPTH, expand)
      && MAX_DEPTH <= further
    ensures Planned(c, db, RootView(QueryPlanOf(c, model, schema, expand, [])), only, model, pk, schema, 0, expand)
         == Render(c, db, model, pk, schema, 0, further, expand)
  {
    OrdinarySchemasRenderAlike(c, model, schema, expand, only);
    ShallowRendersWhole(c, db, model, pk, schema, 0, MAX_DEPTH, further, expand);
  }

  // --- Schemas the planner is wrong about --------------------------------------------------------------------

  const AUTHOR := Info("author", "author", Some(1), false, [])
  const TEAM := Info("team", "team", Some(2), false, [])
  const BYLINE := Info("label", "label", None, false, [["team"]])

  /** Articles have an author and users a team; the author's schema has a resolver that says it
      reads the team, and perhaps renders the team itself as well. */
  function Bylines(rendered: bool): Catalog {
    Catalog(map[0 := map["author" := Forward(1, "author_id")], 1 := map["team" := Forward(2, "team_id")]], map[],
            map[0 := [AUTHOR], 1 := if rendered then [TEAM, BYLINE] else [BYLINE]])
  }

  lemma BylinesForce(rendered: bool, plan: Plan)
    ensures ["team"] in Collect(Bylines(rendered), plan, 1, 1, ["author"], 1, {}).forcedSelect
  {
    var c := Bylines(rendered);
    CollectCovers(c, plan, 1, 1, ["author"], 1, {});
    assert IsForward(c, 1, "team") && FieldOf(c, 1, "label").None?;
    assert FieldsOf(c, 1) == if rendered then [TEAM, BYLINE] else [BYLINE];
    assert BYLINE in FieldsOf(c, 1) && ["team"] in BYLINE.hints;
    var q := Collect(c, plan, 1, 1, ["author"], 1, {});
    assert Covers(c, q, 1, BYLINE, ["author"], 1, {}) && Recorded(c, q, 1, ["team"]);
  }

  /** The plan joins `team` where the article is queried, not `author__team`: articles have no such
      relation, so the query is refused, even if the team is joined where it is read. */
  lemma JoinedHintsAreRefused(rendered: bool, only: bool)
    ensures !Runs(Bylines(rendered), QueryPlanOf(Bylines(rendered), 0, 0, {}, []), only)
  {
    var c, plan := Bylines(rendered), QueryPlanOf(Bylines(rendered), 0, 0, {}, []);
    QueryPlanCovers(c, 0, 0, {}, []);
    assert FieldsOf(c, 0) == [AUTHOR] && [AUTHOR][1..] == []
      && FieldOf(c, 0, "author") == Some(Forward(1, "author_id"));
    var start := NewPlan(0).(columns := NewPlan(0).columns + [Column([], KeyOf(c, 0))]);
    var joined := start.(columns := start.columns + [Column([], "author_id")], select := start.select + [["author"]]);
    assert [] + ["author"] == ["author"];
    assert CollectField(c, start, 0, AUTHOR, [], 0, {}) == Collect(c, joined, 1, 1, ["author"], 1, {});
    assert plan == CollectFields(c, start, 0, [AUTHOR], [], 0, {}) == CollectField(c, start, 0, AUTHOR, [], 0, {});
    BylinesForce(rendered, joined);
    CollectGrows(c, joined, 1, 1, ["author"], 1, {});
    assert FieldOf(c, 0, "team").None? && ModelAt(c, plan.model, ["team"]).None?;
  }

  const COMMENTS := Info("comments", "comments", Some(1), false, [])
  const REPLIES := Info("replies", "comments", Some(1), false, [])

  /** Articles have comments, and a schema renders them through two of its fields. */
  function Repeated(): Catalog {
    Catalog(map[0 := map["comments" := Reverse(1, "article_id")]], map[], map[0 := [COMMENTS, REPLIES], 1 := []])
  }

  lemma RepeatedPlan()
    ensures var child := Plan(1, [], [], [Column([], "article_id"), Column([], "id")], true, [], []);
      QueryPlanOf(Repeated(), 0, 0, {}, [])
        == Plan(0, [], [(["comments"], child), (["comments"], child)], [Column([], "id")], true, [], [])
  {
    var c := Repeated();
    assert FieldOf(c, 0, "comments") == Some(Reverse(1, "article_id")) && FieldsOf(c, 1) == [];
    assert FieldsOf(c, 0) == [COMMENTS, REPLIES] && [COMMENTS, REPLIES][1..] == [REPLIES] && [REPLIES][1..] == [];
    assert [] + ["comments"] == ["comments"];
    var child := Plan(1, [], [], [Column([], "article_id"), Column([], "id")], true, [], []);
    assert ChildPlan(c, Reverse(1, "article_id"), COMMENTS, 0, {}) == child
      == ChildPlan(c, Reverse(1, "article_id"), REPLIES, 0, {});
    var start := NewPlan(0).(columns := [Column([], "id")]);
    assert NewPlan(0).(columns := NewPlan(0).columns + [Column([], "id")]) == start;
    var one := start.(prefetch := [(["comments"], child)]);
    assert CollectField(c, start, 0, COMMENTS, [], 0, {}) == one;
    assert QueryPlanOf(c, 0, 0, {}, []) == CollectFields(c, start, 0, [COMMENTS, REPLIES], [], 0, {})
        == CollectFields(c, one, 0, [REPLIES], [], 0, {}) == CollectField(c, one, 0, REPLIES, [], 0, {});
  }

  lemma CommentsAreServed(v: View, info: Info)
    requires info == COMMENTS || info == REPLIES
    requires LookUp(v.plan.prefetch, false, v.at + ["comments"])
      == Once(Plan(1, [], [], [Column([], "article_id"), Column([], "id")], true, [], []))
    ensures ServesField(Repeated(), v, false, 0, info, 0, {})
  {
    var c, child := Repeated(), Plan(1, [], [], [Column([], "article_id"), Column([], "id")], true, [], []);
    assert FieldOf(c, 0, "comments") == Some(Reverse(1, "article_id")) && FieldsOf(c, 1) == [];
    assert ChildPlan(c, Reverse(1, "article_id"), info, 0, {}) == child;
    assert Serves(c, View(child, [], child.forcedPrefetch + Through(v.extra, "comments")), false, 1, 1, 1, {});
  }

  lemma RepeatedIsServed()
    ensures var plan := QueryPlanOf(Repeated(), 0, 0, {}, []);
      Accepted(Repeated(), plan, false) && Serves(Repeated(), RootView(plan), false, 0, 0, 0, {})
  {
    var c, plan := Repeated(), QueryPlanOf(Repeated(), 0, 0, {}, []);
    var child := Plan(1, [], [], [Column([], "article_id"), Column([], "id")], true, [], []);
    RepeatedPlan();
    assert plan.prefetch[1..] == [(["comments"], child)];
    assert LookUp(plan.prefetch, false, ["comments"]) == Once(child);
    assert FieldOf(c, 0, "comments") == Some(Reverse(1, "article_id")) && FieldsOf(c, 1) == []
      && [] + ["comments"] == ["comments"];
    forall info | info in FieldsOf(c, 0) ensures ServesField(c, RootView(plan), false, 0, info, 0, {}) {
      CommentsAreServed(RootView(plan), info);
    }
  }

  lemma RepeatedIsRefused()
    ensures !Accepted(Repeated(), QueryPlanOf(Repeated(), 0, 0, {}, []), true)
  {
    var plan := QueryPlanOf(Repeated(), 0, 0, {}, []);
    var child := Plan(1, [], [], [Column([], "article_id"), Column([], "id")], true, [], []);
    RepeatedPlan();
    assert plan.prefetch[1..] == [(["comments"], child)] && plan.prefetch[1..][0] == (["comments"], child);
    assert (["comments"], child) in plan.prefetch[1..] && !IsBare(child, true);
    assert LookUp(plan.prefetch, true, ["comments"]) == Clash;
    assert (["comments"], child) in plan.prefetch;
  }

  /** The relation is looked up twice. By its bare name that is harmless; once columns are restricted,
      the second lookup brings a query of its own and is refused. */
  lemma RepeatedRelationsClash(only: bool)
    ensures RendersAlike(Repeated(), QueryPlanOf(Repeated(), 0, 0, {}, []), only, 0, 0, {}) <==> !only
  {
    PlanRendersExactlyWhenItServes(Repeated(), 0, 0, {}, [], only);
    if only { RepeatedIsRefused(); } else { RepeatedIsServed(); }
  }

  // --- Plain schemas ------------------------------------------------------------------------------------------

  /** No schema names a field twice, and no resolver declares what it reads. */
  ghost predicate Plain(c: Catalog) {
    forall schema | schema in c.schemas ::
      && (forall info | info in c.schemas[schema] :: info.hints == [])
      && forall i, j | 0 <= i < j < |c.schemas[schema]| ::
           c.schemas[schema][i].attribute != c.schemas[schema][j].attribute
  }

  lemma {:induction false} PlainIsOrdinary(c: Catalog, model: Model, schema: Schema, joined: bool, depth: nat,
                                           expand: set<string>)
    requires depth < MAX_DEPTH && Plain(c)
    ensures Ordinary(c, model, schema, joined, depth, expand)
    decreases MAX_DEPTH - depth
  {
    forall info | info in FieldsOf(c, schema)
      ensures OrdinaryField(c, model, schema, info, joined, depth, expand)
    {
      assert info in c.schemas[schema];
      match FieldOf(c, model, info.attribute)
      case None =>
      case Some(Scalar) =>
      case Some(field) =>
        if Nests(info, expand, depth) {
          PlainIsOrdinary(c, field.related, info.nested.value, field.Forward?, depth + 1, {});
        }
    }
  }

  /** Such schemas render alike whatever they nest, themselves included, and whatever is asked for. */
  lemma PlainSchemasRenderAlike(c: Catalog, model: Model, schema: Schema, expand: set<string>, only: bool)
    requires Plain(c)
    ensures RendersAlike(c, QueryPlanOf(c, model, schema, expand, []), only, model, schema, expand)
  {
    PlainIsOrdinary(c, model, schema, false, 0, expand);
    OrdinarySchemasRenderAlike(c, model, schema, expand, only);
  }
}
