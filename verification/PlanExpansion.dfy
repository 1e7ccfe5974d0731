/** Which relations a plan looks up and how a field is rendered, said from the schemas and what was asked
    to be expanded alone. */
module PlanExpansion {
  import opened QueryPlan
  import opened PlanRendering

  // --- Lookups ----------------------------------------------------------------------------------

  /** `path` leads through fields of the schema to a relation that is rendered, the last one to-many if `many`:
      joins lead on, at most three of them; a field that is expandable is rendered only when it is asked for,
      and below the root nothing is. */
  ghost predicate LooksUp(c: Catalog, model: Model, schema: Schema, path: Path, depth: nat, expand: set<string>,
                          many: bool)
    decreases |path|, 1
  {
    schema in c.schemas && exists info ::
      info in c.schemas[schema] && LooksUpBy(c, model, info, path, depth, expand, many)
  }

  ghost predicate LooksUpBy(c: Catalog, model: Model, info: Info, path: Path, depth: nat, expand: set<string>,
                            many: bool)
    decreases |path|, 0
  {
    && path != [] && path[0] == info.attribute && (info.expandable ==> info.name in expand)
    && model in c.fields && info.attribute in c.fields[model]
    && match c.fields[model][info.attribute]
       case Scalar => false
       case Forward(related, _) =>
         && info.nested.Some? && depth < 3
         && if |path| == 1 then !many else LooksUp(c, related, info.nested.value, path[1..], depth + 1, {}, many)
       case Reverse(_, _) => many && |path| == 1
       case ManyToMany(_) => many && |path| == 1
  }

  ghost predicate HasPath(plan: Plan, path: Path, many: bool) {
    if many then exists entry :: entry in plan.prefetch && entry.0 == path else path in plan.select
  }

  lemma {:induction false} CollectLooksUp(c: Catalog, plan: Plan, model: Model, schema: Schema, prefix: Path,
                                          depth: nat, expand: set<string>, path: Path, many: bool)
    requires depth < MAX_DEPTH
    ensures HasPath(Collect(c, plan, model, schema, prefix, depth, expand), prefix + path, many) <==>
            HasPath(plan, prefix + path, many) || LooksUp(c, model, schema, path, depth, expand, many)
    decreases MAX_DEPTH - depth, 3, 0
  {
    var start := plan.(columns := plan.columns + [Column(prefix, KeyOf(c, model))]);
    FieldsLookUp(c, start, model, FieldsOf(c, schema), prefix, depth, expand, path, many);
    assert HasPath(start, prefix + path, many) <==> HasPath(plan, prefix + path, many);
  }

  lemma {:induction false} FieldsLookUp(c: Catalog, plan: Plan, model: Model, infos: seq<Info>, prefix: Path,
                                        depth: nat, expand: set<string>, path: Path, many: bool)
    requires depth < MAX_DEPTH
    ensures HasPath(CollectFields(c, plan, model, infos, prefix, depth, expand), prefix + path, many) <==>
            HasPath(plan, prefix + path, many) ||
            exists info :: info in infos && LooksUpBy(c, model, info, path, depth, expand, many)
    decreases MAX_DEPTH - depth, 2, |infos|
  {
    if infos != [] {
      var p := CollectField(c, plan, model, infos[0], prefix, depth, expand);
      FieldLooksUp(c, plan, model, infos[0], prefix, depth, expand, path, many);
      FieldsLookUp(c, p, model, infos[1..], prefix, depth, expand, path, many);
      assert forall info :: info in infos <==> info == infos[0] || info in infos[1..];
    }
  }

  lemma {:induction false} FieldLooksUp(c: Catalog, plan: Plan, model: Model, info: Info, prefix: Path, depth: nat,
                                        expand: set<string>, path: Path, many: bool)
    requires depth < MAX_DEPTH
    ensures HasPath(CollectField(c, plan, model, info, prefix, depth, expand), prefix + path, many) <==>
            HasPath(plan, prefix + path, many) || LooksUpBy(c, model, info, path, depth, expand, many)
    decreases MAX_DEPTH - depth, 1, 0
  {
    var q := CollectField(c, plan, model, info, prefix, depth, expand);
    match FieldOf(c, model, info.attribute)
    case None => HintsOnlyForce(c, plan.(exact := false), model, info.hints);
    case Some(Scalar) =>
    case Some(Forward(related, attname)) =>
      if Nests(info, expand, depth) {
        var keyed := plan.(columns := plan.columns + [Column(prefix, attname)]);
        JoinLooksUp(c, keyed, related, info, prefix, depth, path, many);
      }
    case Some(relation) =>
      SamePath(prefix, path, info.attribute);
      if !Folded(info, expand) {
        PrefetchAppends(plan, q, prefix + [info.attribute], ChildPlan(c, relation, info, depth, expand));
      }
  }

  lemma PrefetchAppends(p: Plan, q: Plan, at: Path, child: Plan)
    requires q == p.(prefetch := p.prefetch + [(at, child)])
    ensures forall path :: HasPath(q, path, true) <==> HasPath(p, path, true) || path == at
  {
    assert q.prefetch[|p.prefetch|] == (at, child);
    forall path ensures HasPath(q, path, true) <==> HasPath(p, path, true) || path == at {
      if HasPath(p, path, true) {
        var entry :| entry in p.prefetch && entry.0 == path;
        assert entry in q.prefetch;
      }
    }
  }

  lemma SamePath(prefix: Path, path: Path, attr: Attr)
    ensures prefix + [attr] == prefix + path <==> path == [attr]
  {
    assert prefix + path == prefix + [attr] ==> (prefix + path)[|prefix|..] == (prefix + [attr])[|prefix|..];
    assert (prefix + path)[|prefix|..] == path && (prefix + [attr])[|prefix|..] == [attr];
  }

  lemma {:induction false} JoinLooksUp(c: Catalog, plan: Plan, related: Model, info: Info, prefix: Path, depth: nat,
                                       path: Path, many: bool)
    requires depth + 1 < MAX_DEPTH && info.nested.Some?
    ensures var at := prefix + [info.attribute];
      HasPath(Collect(c, plan.(select := plan.select + [at]), related, info.nested.value, at, depth + 1, {}),
              prefix + path, many) <==>
      (HasPath(plan, prefix + path, many) ||
       (path != [] && path[0] == info.attribute &&
        if |path| == 1 then !many else LooksUp(c, related, info.nested.value, path[1..], depth + 1, {}, many)))
    decreases MAX_DEPTH - depth, 0, 0
  {
    var at := prefix + [info.attribute];
    var joined := plan.(select := plan.select + [at]);
    SamePath(prefix, path, info.attribute);
    if path != [] && path[0] == info.attribute {
      assert prefix + path == at + path[1..];
      CollectLooksUp(c, joined, related, info.nested.value, at, depth + 1, {}, path[1..], many);
      assert !LooksUp(c, related, info.nested.value, [], depth + 1, {}, many);
    } else {
      NothingElsewhere(c, joined, related, info.nested.value, at, depth + 1, {}, prefix + path, many);
      assert !(at <= prefix + path) by { OtherBranch(prefix, path, info.attribute); }
    }
  }

  lemma OtherBranch(prefix: Path, path: Path, attr: Attr)
    requires path == [] || path[0] != attr
    ensures !(prefix + [attr] <= prefix + path)
  {
    var at, whole := prefix + [attr], prefix + path;
    assert at[|prefix|] == attr && (path != [] ==> whole[|prefix|] == path[0]);
  }

  /** Collecting at `prefix` adds lookups below it only. */
  lemma {:induction false} NothingElsewhere(c: Catalog, plan: Plan, model: Model, schema: Schema, prefix: Path,
                                            depth: nat, expand: set<string>, path: Path, many: bool)
    requires depth < MAX_DEPTH
    ensures !(prefix <= path) ==>
      (HasPath(Collect(c, plan, model, schema, prefix, depth, expand), path, many) <==> HasPath(plan, path, many))
    decreases MAX_DEPTH - depth, 1, 0
  {
    var start := plan.(columns := plan.columns + [Column(prefix, KeyOf(c, model))]);
    NothingElsewhereBy(c, start, model, FieldsOf(c, schema), prefix, depth, expand, path, many);
    assert HasPath(start, path, many) <==> HasPath(plan, path, many);
  }

  lemma {:induction false} NothingElsewhereBy(c: Catalog, plan: Plan, model: Model, infos: seq<Info>, prefix: Path,
                                              depth: nat, expand: set<string>, path: Path, many: bool)
    requires depth < MAX_DEPTH
    ensures !(prefix <= path) ==>
      (HasPath(CollectFields(c, plan, model, infos, prefix, depth, expand), path, many) <==>
       HasPath(plan, path, many))
    decreases MAX_DEPTH - depth, 0, |infos|
  {
    if infos != [] && !(prefix <= path) {
      var info, p := infos[0], CollectField(c, plan, model, infos[0], prefix, depth, expand);
      assert prefix <= prefix + [info.attribute];
      match FieldOf(c, model, info.attribute) {
        case None => HintsOnlyForce(c, plan.(exact := false), model, info.hints);
        case Some(Scalar) =>
        case Some(Forward(related, attname)) =>
          if Nests(info, expand, depth) {
            var at := prefix + [info.attribute];
            var q := plan.(columns := plan.columns + [Column(prefix, attname)], select := plan.select + [at]);
            NothingElsewhere(c, q, related, info.nested.value, at, depth + 1, {}, path, many);
            assert HasPath(q, path, many) <==> HasPath(plan, path, many);
          }
        case Some(relation) =>
          if !Folded(info, expand) {
            PrefetchAppends(plan, p, prefix + [info.attribute], ChildPlan(c, relation, info, depth, expand));
          }
      }
      assert HasPath(p, path, many) <==> HasPath(plan, path, many);
      NothingElsewhereBy(c, p, model, infos[1..], prefix, depth, expand, path, many);
    }
  }

  /** A query plan joins and prefetches exactly the relations that its schema renders, as far as three joins
      or levels go, and the expandable ones among them exactly when they are asked for. */
  lemma PlansLookUpExactly(c: Catalog, model: Model, schema: Schema, expand: set<string>, hints: seq<Path>, path: Path)
    ensures var plan := QueryPlanOf(c, model, schema, expand, hints);
      && (path in plan.select <==> LooksUp(c, model, schema, path, 0, expand, false))
      && ((exists entry :: entry in plan.prefetch && entry.0 == path) <==>
          LooksUp(c, model, schema, path, 0, expand, true))
  {
    var derived := Collect(c, NewPlan(model), model, schema, [], 0, expand);
    HintsOnlyForce(c, derived, model, hints);
    assert [] + path == path;
    CollectLooksUp(c, NewPlan(model), model, schema, [], 0, expand, path, false);
    CollectLooksUp(c, NewPlan(model), model, schema, [], 0, expand, path, true);
    var plan := QueryPlanOf(c, model, schema, expand, hints);
    assert HasPath(plan, path, false) <==> HasPath(derived, path, false);
    assert HasPath(plan, path, true) <==> HasPath(derived, path, true);
  }

  /** A to-many relation at the root that is rendered has a query of its own, for its own model, which can hand
      the rows to their parents and looks up what the nested schema renders, one level on. */
  lemma RootRelationsAreFetched(c: Catalog, model: Model, schema: Schema, expand: set<string>, hints: seq<Path>,
                                info: Info)
    returns (child: Plan)
    requires schema in c.schemas && info in c.schemas[schema] && (info.expandable ==> info.name in expand)
    requires model in c.fields && info.attribute in c.fields[model]
    requires var field := c.fields[model][info.attribute]; field.Reverse? || field.ManyToMany?
    ensures var field := c.fields[model][info.attribute];
      && ([info.attribute], child) in QueryPlanOf(c, model, schema, expand, hints).prefetch
      && child.model == field.related && (field.Reverse? ==> Column([], field.column) in child.columns)
      && if info.nested.None? then !child.exact && child.select == [] && child.prefetch == []
         else forall path ::
           && (path in child.select <==> LooksUp(c, field.related, info.nested.value, path, 1, {}, false))
           && ((exists entry :: entry in child.prefetch && entry.0 == path) <==>
               LooksUp(c, field.related, info.nested.value, path, 1, {}, true))
  {
    var field := c.fields[model][info.attribute];
    child := ChildPlan(c, field, info, 0, expand);
    QueryPlanCovers(c, model, schema, expand, hints);
    assert Covers(c, QueryPlanOf(c, model, schema, expand, hints), model, info, [], 0, expand);
    assert [] + [info.attribute] == [info.attribute];
    ChildCovers(c, field, info, 0, expand);
    if info.nested.Some? {
      CollectGrows(c, NewChild(field), field.related, info.nested.value, [], 1, {});
      forall path
        ensures path in child.select <==> LooksUp(c, field.related, info.nested.value, path, 1, {}, false)
        ensures (exists entry :: entry in child.prefetch && entry.0 == path) <==>
                LooksUp(c, field.related, info.nested.value, path, 1, {}, true)
      {
        assert [] + path == path;
        CollectLooksUp(c, NewChild(field), field.related, info.nested.value, [], 1, {}, path, false);
        CollectLooksUp(c, NewChild(field), field.related, info.nested.value, [], 1, {}, path, true);
        assert HasPath(child, path, true) <==> exists entry :: entry in child.prefetch && entry.0 == path;
      }
    }
  }

  /** Every field the schema reads at the root has its column, a relation its key's, asked for or not; and a
      to-many relation that is not asked for keeps the query from restricting its columns. */
  lemma RootColumnsAreLoaded(c: Catalog, model: Model, schema: Schema, expand: set<string>, hints: seq<Path>,
                             info: Info)
    requires schema in c.schemas && info in c.schemas[schema]
    ensures var plan := QueryPlanOf(c, model, schema, expand, hints);
      && Column([], if model in c.keys then c.keys[model] else "id") in plan.columns
      && (!(model in c.fields && info.attribute in c.fields[model]) ==> !plan.exact)
      && (model in c.fields && info.attribute in c.fields[model] ==>
          match c.fields[model][info.attribute]
          case Scalar => Column([], info.attribute) in plan.columns
          case Forward(_, attname) => Column([], attname) in plan.columns
          case Reverse(_, _) => info.expandable && info.name !in expand ==> !plan.exact
          case ManyToMany(_) => info.expandable && info.name !in expand ==> !plan.exact)
  {
    QueryPlanCovers(c, model, schema, expand, hints);
    assert Covers(c, QueryPlanOf(c, model, schema, expand, hints), model, info, [], 0, expand);
  }

  // --- The reference rendering --------------------------------------------------------------------

  /** An object shows the fields of its schema in their order. */
  lemma {:induction false} ObjectsShowTheirFields(c: Catalog, db: Store, model: Model, pk: nat, infos: seq<Info>,
                                                  depth: nat, limit: nat, expand: set<string>)
    requires depth < limit
    ensures var fields := RenderFields(c, db, model, pk, infos, depth, limit, expand);
      && |fields| == |infos|
      && forall i | 0 <= i < |infos| ::
           fields[i] == (infos[i].name, RenderField(c, db, model, pk, infos[i], depth, limit, expand))
    decreases |infos|
  {
    if infos != [] { ObjectsShowTheirFields(c, db, model, pk, infos[1..], depth, limit, expand); }
  }

  /** A forward relation is shown as the object it leads to when it has a schema and is not expandable or was asked
      for, and as its key otherwise. */
  lemma ForwardIsShown(c: Catalog, db: Store, model: Model, pk: nat, info: Info, depth: nat, limit: nat,
                       expand: set<string>)
    requires depth < limit && model in c.fields && info.attribute in c.fields[model]
    requires c.fields[model][info.attribute].Forward?
    ensures var field, shown := c.fields[model][info.attribute],
      RenderField(c, db, model, pk, info, depth, limit, expand);
      var key := if (model, pk) in db.rows && field.attname in db.rows[(model, pk)]
                 then db.rows[(model, pk)][field.attname] else None;
      if info.nested.None? || (info.expandable && info.name !in expand) then shown == Value(key)
      else if key.None? then shown == Null
      else if depth + 1 == limit then shown == Cut
      else
        && shown == Render(c, db, field.related, key.value, info.nested.value, depth + 1, limit, {})
        && shown.Object?
  {
  }

  /** A to-many relation is shown as one object for each related row, in order, under the same condition. */
  lemma ManyIsShown(c: Catalog, db: Store, model: Model, pk: nat, info: Info, depth: nat, limit: nat,
                    expand: set<string>)
    requires depth < limit && model in c.fields && info.attribute in c.fields[model]
    requires var field := c.fields[model][info.attribute]; field.Reverse? || field.ManyToMany?
    requires info.nested.Some? && depth + 1 < limit && (info.expandable ==> info.name in expand)
    ensures var field, shown := c.fields[model][info.attribute],
      RenderField(c, db, model, pk, info, depth, limit, expand);
      var keys := if (model, info.attribute, pk) in db.related then db.related[(model, info.attribute, pk)] else [];
      && shown.Array? && |shown.items| == |keys|
      && forall i | 0 <= i < |keys| ::
           shown.items[i] == Render(c, db, field.related, keys[i], info.nested.value, depth + 1, limit, {})
  {
  }

  /** What else a field can be: a column shows its value, a to-many relation that is not rendered hands out the row
      it is asked of, one without a schema the rows it leads to, and anything that is no field of the model is
      computed from the whole row and from what its resolver declares. */
  lemma OtherFieldsAreShown(c: Catalog, db: Store, model: Model, pk: nat, info: Info, depth: nat, limit: nat,
                            expand: set<string>)
    requires depth < limit
    ensures var shown := RenderField(c, db, model, pk, info, depth, limit, expand);
      var row := if (model, pk) in db.rows then db.rows[(model, pk)] else map[];
      if !(model in c.fields && info.attribute in c.fields[model]) then
        && shown.Whole? && shown.row == row && |shown.declared| == |info.hints|
        && forall i | 0 <= i < |info.hints| :: shown.declared[i] == Read(c, db, model, pk, info.hints[i])
      else
        var field := c.fields[model][info.attribute];
        && (field.Scalar? ==> shown == Value(if info.attribute in row then row[info.attribute] else None))
        && (field.Reverse? || field.ManyToMany? ==>
              if info.expandable && info.name !in expand then shown == Whole(row, [])
              else if info.nested.Some? then depth + 1 == limit ==> shown == Cut
              else ShowsRows(db, field.related, OthersOf(db, model, info.attribute, pk), shown))
  {
  }

  ghost predicate ShowsRows(db: Store, model: Model, keys: seq<nat>, shown: Json) {
    && shown.Array? && |shown.items| == |keys|
    && forall i | 0 <= i < |keys| ::
         shown.items[i] == Whole(if (model, keys[i]) in db.rows then db.rows[(model, keys[i])] else map[], [])
  }

  /** A declared path is read relation by relation: a forward one leads on by its key, or to nothing when that is
      null; a to-many one leads on from each related row, in order; and a path ends with whole rows. */
  lemma PathsAreReadRelationByRelation(c: Catalog, db: Store, model: Model, pk: nat, path: Path)
    ensures var shown := Read(c, db, model, pk, path);
      var row := if (model, pk) in db.rows then db.rows[(model, pk)] else map[];
      if path == [] then shown == Whole(row, [])
      else if !(model in c.fields && path[0] in c.fields[model]) then shown == Null
      else
        match c.fields[model][path[0]]
        case Scalar => shown == Null
        case Forward(related, attname) =>
          if attname in row && row[attname].Some? then shown == Read(c, db, related, row[attname].value, path[1..])
          else shown == Null
        case Reverse(related, _) => ReadsEach(c, db, model, path, pk, related, shown)
        case ManyToMany(related) => ReadsEach(c, db, model, path, pk, related, shown)
  {
  }

  ghost predicate ReadsEach(c: Catalog, db: Store, model: Model, path: Path, pk: nat, related: Model, shown: Json)
    requires path != []
  {
    var keys := if (model, path[0], pk) in db.related then db.related[(model, path[0], pk)] else [];
    && shown.Array? && |shown.items| == |keys|
    && forall i | 0 <= i < |keys| :: shown.items[i] == Read(c, db, related, keys[i], path[1..])
  }

  // --- What a restricted query leaves behind --------------------------------------------------------

  /** Columns are restricted when that was asked for and neither the plan nor a query of it reads whole rows. */
  lemma RestrictedExactly(plan: Plan, only: bool)
    ensures Restricted(plan, only) <==>
      only && plan.exact && forall entry | entry in plan.prefetch :: Restricted(entry.1, true)
  {
  }

  /** A restricted query loads, of each object it names columns of, the columns it names, the primary key, and the
      keys of the relations that it joins further columns through; other objects are loaded whole. */
  lemma ColumnsAreLoadedExactly(c: Catalog, plan: Plan, at: Path, extra: seq<Path>, model: Model, attname: Attr)
    requires Restricted(plan, true)
    ensures HasColumn(c, View(plan, at, extra), false, model, attname)
    ensures HasColumn(c, View(plan, at, extra), true, model, attname) <==>
      || (forall column | column in plan.columns :: !(at <= column.path))
      || attname == (if model in c.keys then c.keys[model] else "id")
      || Column(at, attname) in plan.columns
      || exists column, attr, related ::
           && column in plan.columns && at + [attr] <= column.path
           && FieldOf(c, model, attr) == Some(Forward(related, attname))
  {
    assert HasColumn(c, View(plan, at, extra), true, model, attname) <==> Loads(c, plan.columns, at, model, attname);
    forall column | column in plan.columns && GoesAlong(c, column.path, at, model, attname)
      ensures exists attr, related ::
        at + [attr] <= column.path && FieldOf(c, model, attr) == Some(Forward(related, attname))
    {
      var attr := column.path[|at|];
      assert at + [attr] <= column.path;
      assert FieldOf(c, model, attr) == Some(Forward(FieldOf(c, model, attr).value.related, attname));
    }
    forall column, attr, related | column in plan.columns && at + [attr] <= column.path
                                   && FieldOf(c, model, attr) == Some(Forward(related, attname))
      ensures GoesAlong(c, column.path, at, model, attname)
    {
      assert column.path[|at|] == (at + [attr])[|at|] == attr;
    }
  }

  /** The rows a prefetch brought can be handed to their parents when they were looked up in one way and a reverse
      relation's column is among what was loaded. */
  lemma RowsAreHandedOutExactly(c: Catalog, v: View, only: bool, attr: Attr, many: Field)
    requires ToMany(many) && LookUp(v.plan.prefetch, only, v.at + [attr]).Once?
    ensures var child := LookUp(v.plan.prefetch, only, v.at + [attr]).plan;
      HasMany(c, v, only, attr, many) <==>
      (many.Reverse? && Restricted(child, only) ==> Loads(c, child.columns, [], many.related, many.column))
  {
  }
}
