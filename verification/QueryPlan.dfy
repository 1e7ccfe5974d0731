/** From a model and an output schema to the joins, prefetches and columns that render it. */
module QueryPlan {

  datatype Option<+T> = None | Some(value: T)

  type Model = nat
  type Schema = nat
  type Attr = string
  type Path = seq<Attr>

  /** How the planner sees a model field. */
  datatype Field =
    | Scalar
    | Forward(related: Model, attname: Attr)      // foreign key or one-to-one
    | Reverse(related: Model, column: Attr)       // reverse foreign key, joined on `column`
    | ManyToMany(related: Model)                  // forward many-to-many

  /** A schema field: what it reads, how it is rendered, and, for a resolver, the relations it
      declares to read, each a path from the object. */
  datatype Info = Info(name: string, attribute: Attr, nested: Option<Schema>, expandable: bool, hints: seq<Path>)

  datatype Catalog = Catalog(fields: map<Model, map<Attr, Field>>, keys: map<Model, Attr>,
                             schemas: map<Schema, seq<Info>>)

  datatype Column = Column(path: Path, attname: Attr)

  datatype Plan = Plan(
    model: Model,
    select: seq<Path>,
    prefetch: seq<(Path, Plan)>,
    columns: seq<Column>,
    exact: bool,
    forcedSelect: seq<Path>,
    forcedPrefetch: seq<Path>)

  const MAX_DEPTH := 4

  function NewPlan(model: Model): Plan {
    Plan(model, [], [], [], true, [], [])
  }

  function FieldOf(c: Catalog, model: Model, attr: Attr): Option<Field> {
    if model in c.fields && attr in c.fields[model] then Some(c.fields[model][attr]) else None
  }

  function KeyOf(c: Catalog, model: Model): Attr {
    if model in c.keys then c.keys[model] else "id"
  }

  function FieldsOf(c: Catalog, schema: Schema): seq<Info> {
    if schema in c.schemas then c.schemas[schema] else []
  }

  predicate IsForward(c: Catalog, model: Model, attr: Attr) {
    FieldOf(c, model, attr).Some? && FieldOf(c, model, attr).value.Forward?
  }

  predicate ToMany(field: Field) {
    field.Reverse? || field.ManyToMany?
  }

  predicate IsToMany(c: Catalog, model: Model, attr: Attr) {
    FieldOf(c, model, attr).Some? && ToMany(FieldOf(c, model, attr).value)
  }

  /** An expandable field that was not asked for: a forward one is rendered as its key. */
  predicate Folded(info: Info, expand: set<string>) {
    info.expandable && info.name !in expand
  }

  predicate Nests(info: Info, expand: set<string>, depth: nat) {
    info.nested.Some? && !Folded(info, expand) && depth + 1 < MAX_DEPTH
  }

  // --- Collecting -------------------------------------------------------------------------

  /** One lookup of _apply_hints, recorded as it was written: a join when it starts with a forward
      relation, a prefetch when it starts with any other field. */
  function ApplyHint(c: Catalog, plan: Plan, model: Model, hint: Path): Plan {
    if hint == [] || FieldOf(c, model, hint[0]).None? then plan
    else if IsForward(c, model, hint[0]) then
      if hint in plan.forcedSelect then plan else plan.(forcedSelect := plan.forcedSelect + [hint])
    else
      if hint in plan.forcedPrefetch then plan else plan.(forcedPrefetch := plan.forcedPrefetch + [hint])
  }

  function ApplyHints(c: Catalog, plan: Plan, model: Model, hints: seq<Path>): Plan
    decreases |hints|
  {
    if hints == [] then plan else ApplyHints(c, ApplyHint(c, plan, model, hints[0]), model, hints[1..])
  }

  function Collect(c: Catalog, plan: Plan, model: Model, schema: Schema, prefix: Path, depth: nat,
                   expand: set<string>): Plan
    requires depth < MAX_DEPTH
    decreases MAX_DEPTH - depth, 3, 0
  {
    CollectFields(c, plan.(columns := plan.columns + [Column(prefix, KeyOf(c, model))]), model, FieldsOf(c, schema),
                  prefix, depth, expand)
  }

  function CollectFields(c: Catalog, plan: Plan, model: Model, infos: seq<Info>, prefix: Path, depth: nat,
                         expand: set<string>): Plan
    requires depth < MAX_DEPTH
    decreases MAX_DEPTH - depth, 2, |infos|
  {
    if infos == [] then plan
    else CollectFields(c, CollectField(c, plan, model, infos[0], prefix, depth, expand), model, infos[1..], prefix,
                       depth, expand)
  }

  function CollectField(c: Catalog, plan: Plan, model: Model, info: Info, prefix: Path, depth: nat,
                        expand: set<string>): Plan
    requires depth < MAX_DEPTH
    decreases MAX_DEPTH - depth, 1, 0
  {
    var attr := info.attribute;
    match FieldOf(c, model, attr)
    case None => ApplyHints(c, plan.(exact := false), model, info.hints)
    case Some(Scalar) => plan.(columns := plan.columns + [Column(prefix, attr)])
    case Some(Forward(related, attname)) =>
      var p := plan.(columns := plan.columns + [Column(prefix, attname)]);
      if !Nests(info, expand, depth) then p
      else Collect(c, p.(select := p.select + [prefix + [attr]]), related, info.nested.value, prefix + [attr],
                   depth + 1, {})
    case Some(many) =>
      if Folded(info, expand) then plan.(exact := false)
      else plan.(prefetch := plan.prefetch + [(prefix + [attr], ChildPlan(c, many, info, depth, expand))])
  }

  /** The plan of a to-many relation's own query. */
  function ChildPlan(c: Catalog, many: Field, info: Info, depth: nat, expand: set<string>): Plan
    requires depth < MAX_DEPTH && ToMany(many)
    decreases MAX_DEPTH - depth, 0, 0
  {
    if Nests(info, expand, depth) then Collect(c, NewChild(many), many.related, info.nested.value, [], depth + 1, {})
    else NewChild(many).(exact := false)
  }

  /** The plan of a to-many relation, before its schema: a reverse key's column is needed to hand
      the rows to their parents. */
  function NewChild(many: Field): Plan
    requires ToMany(many)
  {
    if many.Reverse? then NewPlan(many.related).(columns := [Column([], many.column)]) else NewPlan(many.related)
  }

  /** query_plan: the derived plan with the caller's own hints. */
  function QueryPlanOf(c: Catalog, model: Model, schema: Schema, expand: set<string>, hints: seq<Path>): Plan {
    ApplyHints(c, Collect(c, NewPlan(model), model, schema, [], 0, expand), model, hints)
  }

  /** QueryPlan.is_exact: `only()` is used when every schema field of the plan and of the plans
      it prefetches is a model field. */
  predicate IsExact(plan: Plan) {
    plan.exact && forall entry | entry in plan.prefetch :: IsExact(entry.1)
  }

  predicate Restricted(plan: Plan, only: bool) {
    only && IsExact(plan)
  }

  /** A relation with such a plan is looked up by its bare name, any other one with a query of its
      own. */
  predicate IsBare(plan: Plan, only: bool) {
    plan.select == [] && plan.forcedSelect == [] && plan.prefetch == [] && plan.forcedPrefetch == []
      && !Restricted(plan, only)
  }

  // --- What collecting adds ---------------------------------------------------------------------

  ghost predicate Grows(p: Plan, q: Plan) {
    && p.model == q.model && p.select <= q.select && p.prefetch <= q.prefetch && p.columns <= q.columns
    && p.forcedSelect <= q.forcedSelect && p.forcedPrefetch <= q.forcedPrefetch && (q.exact ==> p.exact)
  }

  /** A hint is recorded as it was written, if its first name is a field. */
  ghost predicate Recorded(c: Catalog, plan: Plan, model: Model, hint: Path) {
    hint != [] ==>
      && (IsForward(c, model, hint[0]) ==> hint in plan.forcedSelect)
      && (FieldOf(c, model, hint[0]).Some? && !IsForward(c, model, hint[0]) ==> hint in plan.forcedPrefetch)
  }

  lemma ApplyHintForces(c: Catalog, plan: Plan, model: Model, hint: Path)
    ensures var q := ApplyHint(c, plan, model, hint);
      Grows(plan, q) && q == plan.(forcedSelect := q.forcedSelect, forcedPrefetch := q.forcedPrefetch)
        && Recorded(c, q, model, hint)
    ensures forall path | path in ApplyHint(c, plan, model, hint).forcedSelect ::
      path in plan.forcedSelect || (path == hint && path != [] && IsForward(c, model, path[0]))
    ensures forall path | path in ApplyHint(c, plan, model, hint).forcedPrefetch ::
      path in plan.forcedPrefetch
        || (path == hint && path != [] && FieldOf(c, model, path[0]).Some? && !IsForward(c, model, path[0]))
  {
    var q := ApplyHint(c, plan, model, hint);
    if hint != [] && IsForward(c, model, hint[0]) && hint !in plan.forcedSelect {
      assert q.forcedSelect[|plan.forcedSelect|] == hint;
    } else if hint != [] && FieldOf(c, model, hint[0]).Some? && !IsForward(c, model, hint[0])
      && hint !in plan.forcedPrefetch {
      assert q.forcedPrefetch[|plan.forcedPrefetch|] == hint;
    }
  }

  /** Hints are recorded, add nothing but themselves, and change nothing else. */
  lemma {:induction false} HintsOnlyForce(c: Catalog, plan: Plan, model: Model, hints: seq<Path>)
    ensures var q := ApplyHints(c, plan, model, hints);
      Grows(plan, q) && q == plan.(forcedSelect := q.forcedSelect, forcedPrefetch := q.forcedPrefetch)
    ensures forall hint | hint in hints :: Recorded(c, ApplyHints(c, plan, model, hints), model, hint)
    ensures forall path | path in ApplyHints(c, plan, model, hints).forcedSelect ::
      path in plan.forcedSelect || (path in hints && path != [] && IsForward(c, model, path[0]))
    ensures forall path | path in ApplyHints(c, plan, model, hints).forcedPrefetch ::
      path in plan.forcedPrefetch
        || (path in hints && path != [] && FieldOf(c, model, path[0]).Some? && !IsForward(c, model, path[0]))
    decreases |hints|
  {
    if hints != [] {
      var p := ApplyHint(c, plan, model, hints[0]);
      ApplyHintForces(c, plan, model, hints[0]);
      HintsOnlyForce(c, p, model, hints[1..]);
      var q := ApplyHints(c, p, model, hints[1..]);
      forall hint | hint in hints ensures Recorded(c, q, model, hint) {
        assert hint == hints[0] || hint in hints[1..];
      }
    }
  }

  lemma {:induction false} CollectGrows(c: Catalog, plan: Plan, model: Model, schema: Schema, prefix: Path, depth: nat,
                                        expand: set<string>)
    requires depth < MAX_DEPTH
    ensures Grows(plan, Collect(c, plan, model, schema, prefix, depth, expand))
    decreases MAX_DEPTH - depth, 2, 0
  {
    FieldsGrow(c, plan.(columns := plan.columns + [Column(prefix, KeyOf(c, model))]), model, FieldsOf(c, schema),
               prefix, depth, expand);
  }

  lemma {:induction false} FieldsGrow(c: Catalog, plan: Plan, model: Model, infos: seq<Info>, prefix: Path, depth: nat,
                                      expand: set<string>)
    requires depth < MAX_DEPTH
    ensures Grows(plan, CollectFields(c, plan, model, infos, prefix, depth, expand))
    decreases MAX_DEPTH - depth, 1, |infos|
  {
    if infos != [] {
      FieldGrows(c, plan, model, infos[0], prefix, depth, expand);
      FieldsGrow(c, CollectField(c, plan, model, infos[0], prefix, depth, expand), model, infos[1..], prefix, depth,
                 expand);
    }
  }

  lemma {:induction false} FieldGrows(c: Catalog, plan: Plan, model: Model, info: Info, prefix: Path, depth: nat,
                                      expand: set<string>)
    requires depth < MAX_DEPTH
    ensures Grows(plan, CollectField(c, plan, model, info, prefix, depth, expand))
    decreases MAX_DEPTH - depth, 0, 0
  {
    match FieldOf(c, model, info.attribute)
    case None => HintsOnlyForce(c, plan.(exact := false), model, info.hints);
    case Some(Forward(related, attname)) =>
      if Nests(info, expand, depth) {
        var p := plan.(columns := plan.columns + [Column(prefix, attname)]);
        var q := p.(select := p.select + [prefix + [info.attribute]]);
        CollectGrows(c, q, related, info.nested.value, prefix + [info.attribute], depth + 1, {});
      }
    case Some(_) =>
  }

  /** The plan holds what rendering the fields of `infos` at `prefix` will ask for. */
  ghost predicate CoversAll(c: Catalog, plan: Plan, model: Model, infos: seq<Info>, prefix: Path, depth: nat,
                            expand: set<string>)
    requires depth < MAX_DEPTH
    decreases MAX_DEPTH - depth, 1
  {
    forall info | info in infos :: Covers(c, plan, model, info, prefix, depth, expand)
  }

  ghost predicate CoversSchema(c: Catalog, plan: Plan, model: Model, schema: Schema, prefix: Path, depth: nat,
                               expand: set<string>)
    requires depth < MAX_DEPTH
    decreases MAX_DEPTH - depth, 2
  {
    Column(prefix, KeyOf(c, model)) in plan.columns
      && CoversAll(c, plan, model, FieldsOf(c, schema), prefix, depth, expand)
  }

  ghost predicate Covers(c: Catalog, plan: Plan, model: Model, info: Info, prefix: Path, depth: nat,
                         expand: set<string>)
    requires depth < MAX_DEPTH
    decreases MAX_DEPTH - depth, 0
  {
    match FieldOf(c, model, info.attribute)
    case None => !plan.exact && forall hint | hint in info.hints :: Recorded(c, plan, model, hint)
    case Some(Scalar) => Column(prefix, info.attribute) in plan.columns
    case Some(Forward(related, attname)) =>
      && Column(prefix, attname) in plan.columns
      && (Nests(info, expand, depth) ==>
            && prefix + [info.attribute] in plan.select
            && CoversSchema(c, plan, related, info.nested.value, prefix + [info.attribute], depth + 1, {}))
    case Some(many) =>
      if Folded(info, expand) then !plan.exact
      else (prefix + [info.attribute], ChildPlan(c, many, info, depth, expand)) in plan.prefetch
  }

  lemma {:induction false} CoverStays(c: Catalog, p: Plan, q: Plan, model: Model, info: Info, prefix: Path, depth: nat,
                                      expand: set<string>)
    requires depth < MAX_DEPTH && Grows(p, q) && Covers(c, p, model, info, prefix, depth, expand)
    ensures Covers(c, q, model, info, prefix, depth, expand)
    decreases MAX_DEPTH - depth, 0
  {
    match FieldOf(c, model, info.attribute)
    case None =>
    case Some(Scalar) =>
    case Some(Forward(related, attname)) =>
      if Nests(info, expand, depth) {
        SchemaCoverStays(c, p, q, related, info.nested.value, prefix + [info.attribute], depth + 1, {});
      }
    case Some(many) =>
  }

  lemma {:induction false} SchemaCoverStays(c: Catalog, p: Plan, q: Plan, model: Model, schema: Schema, prefix: Path,
                                            depth: nat, expand: set<string>)
    requires depth < MAX_DEPTH && Grows(p, q) && CoversSchema(c, p, model, schema, prefix, depth, expand)
    ensures CoversSchema(c, q, model, schema, prefix, depth, expand)
    decreases MAX_DEPTH - depth, 1
  {
    forall info | info in FieldsOf(c, schema) ensures Covers(c, q, model, info, prefix, depth, expand) {
      CoverStays(c, p, q, model, info, prefix, depth, expand);
    }
  }

  lemma {:induction false} CollectCovers(c: Catalog, plan: Plan, model: Model, schema: Schema, prefix: Path,
                                         depth: nat, expand: set<string>)
    requires depth < MAX_DEPTH
    ensures CoversSchema(c, Collect(c, plan, model, schema, prefix, depth, expand), model, schema, prefix, depth,
                         expand)
    decreases MAX_DEPTH - depth, 2, 0
  {
    var p := plan.(columns := plan.columns + [Column(prefix, KeyOf(c, model))]);
    FieldsCover(c, p, model, FieldsOf(c, schema), prefix, depth, expand);
    FieldsGrow(c, p, model, FieldsOf(c, schema), prefix, depth, expand);
    assert Column(prefix, KeyOf(c, model)) in p.columns;
  }

  lemma {:induction false} FieldsCover(c: Catalog, plan: Plan, model: Model, infos: seq<Info>, prefix: Path,
                                       depth: nat, expand: set<string>)
    requires depth < MAX_DEPTH
    ensures CoversAll(c, CollectFields(c, plan, model, infos, prefix, depth, expand), model, infos, prefix, depth,
                      expand)
    decreases MAX_DEPTH - depth, 1, |infos|
  {
    if infos != [] {
      var p := CollectField(c, plan, model, infos[0], prefix, depth, expand);
      var q := CollectFields(c, p, model, infos[1..], prefix, depth, expand);
      FieldCovers(c, plan, model, infos[0], prefix, depth, expand);
      FieldsGrow(c, p, model, infos[1..], prefix, depth, expand);
      CoverStays(c, p, q, model, infos[0], prefix, depth, expand);
      FieldsCover(c, p, model, infos[1..], prefix, depth, expand);
      forall info | info in infos ensures Covers(c, q, model, info, prefix, depth, expand) {
        assert info == infos[0] || info in infos[1..];
      }
    }
  }

  lemma {:induction false} FieldCovers(c: Catalog, plan: Plan, model: Model, info: Info, prefix: Path, depth: nat,
                                       expand: set<string>)
    requires depth < MAX_DEPTH
    ensures Covers(c, CollectField(c, plan, model, info, prefix, depth, expand), model, info, prefix, depth, expand)
    decreases MAX_DEPTH - depth, 0, 0
  {
    var attr, result := info.attribute, CollectField(c, plan, model, info, prefix, depth, expand);
    match FieldOf(c, model, attr)
    case None => HintsOnlyForce(c, plan.(exact := false), model, info.hints);
    case Some(Scalar) =>
    case Some(Forward(related, attname)) =>
      var p := plan.(columns := plan.columns + [Column(prefix, attname)]);
      assert Column(prefix, attname) in p.columns;
      if Nests(info, expand, depth) {
        var q := p.(select := p.select + [prefix + [attr]]);
        assert prefix + [attr] in q.select;
        CollectCovers(c, q, related, info.nested.value, prefix + [attr], depth + 1, {});
        CollectGrows(c, q, related, info.nested.value, prefix + [attr], depth + 1, {});
      }
    case Some(many) =>
      if !Folded(info, expand) {
        assert (prefix + [attr], ChildPlan(c, many, info, depth, expand)) in result.prefetch;
      }
  }

  /** A to-many relation's own plan can hand its rows to their parents, and covers its schema or
      loads whole rows. */
  lemma ChildCovers(c: Catalog, many: Field, info: Info, depth: nat, expand: set<string>)
    requires depth < MAX_DEPTH && ToMany(many)
    ensures var child := ChildPlan(c, many, info, depth, expand);
      && (many.Reverse? ==> Column([], many.column) in child.columns)
      && if Nests(info, expand, depth) then CoversSchema(c, child, many.related, info.nested.value, [], depth + 1, {})
        else !child.exact
  {
    var start, child := NewChild(many), ChildPlan(c, many, info, depth, expand);
    assert many.Reverse? ==> start.columns[0] == Column([], many.column);
    if Nests(info, expand, depth) {
      CollectCovers(c, start, many.related, info.nested.value, [], depth + 1, {});
      CollectGrows(c, start, many.related, info.nested.value, [], depth + 1, {});
      assert many.Reverse? ==> child.columns[0] == Column([], many.column);
    }
  }

  /** A query plan covers its schema; the caller's hints take nothing away. */
  lemma QueryPlanCovers(c: Catalog, model: Model, schema: Schema, expand: set<string>, hints: seq<Path>)
    ensures CoversSchema(c, QueryPlanOf(c, model, schema, expand, hints), model, schema, [], 0, expand)
  {
    var derived := Collect(c, NewPlan(model), model, schema, [], 0, expand);
    CollectCovers(c, NewPlan(model), model, schema, [], 0, expand);
    HintsOnlyForce(c, derived, model, hints);
    SchemaCoverStays(c, derived, QueryPlanOf(c, model, schema, expand, hints), model, schema, [], 0, expand);
  }
}
