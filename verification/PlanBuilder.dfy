/** The planner as it runs: one plan object filled step by step, proved against QueryPlan.Collect. */
module PlanBuilding {
  import opened QueryPlan

  /** The plan while it is being filled. */
  class PlanBuilder {
    const model: Model
    var select: seq<Path>
    var prefetch: seq<(Path, Plan)>
    var columns: seq<Column>
    var exact: bool
    var forcedSelect: seq<Path>
    var forcedPrefetch: seq<Path>

    constructor (model: Model)
      ensures Frozen() == NewPlan(model) && this.model == model
    {
      this.model := model;
      select, prefetch, columns, exact, forcedSelect, forcedPrefetch := [], [], [], true, [], [];
    }

    function Frozen(): Plan
      reads this
    {
      Plan(model, select, prefetch, columns, exact, forcedSelect, forcedPrefetch)
    }

    method ApplyHints(c: Catalog, at: Model, hints: seq<Path>)
      modifies this
      ensures Frozen() == QueryPlan.ApplyHints(c, old(Frozen()), at, hints)
    {
      ghost var start := Frozen();
      for i := 0 to |hints|
        invariant QueryPlan.ApplyHints(c, Frozen(), at, hints[i..]) == QueryPlan.ApplyHints(c, start, at, hints)
      {
        assert hints[i..][1..] == hints[i + 1..];
        var hint := hints[i];
        if hint == [] || FieldOf(c, at, hint[0]).None? {
          continue;
        }
        if IsForward(c, at, hint[0]) {
          if hint !in forcedSelect {
            forcedSelect := forcedSelect + [hint];
          }
        } else if hint !in forcedPrefetch {
          forcedPrefetch := forcedPrefetch + [hint];
        }
      }
      assert hints[|hints|..] == [];
    }

    method Collect(c: Catalog, at: Model, schema: Schema, prefix: Path, depth: nat, expand: set<string>)
      requires depth < MAX_DEPTH
      modifies this
      ensures Frozen() == QueryPlan.Collect(c, old(Frozen()), at, schema, prefix, depth, expand)
      decreases MAX_DEPTH - depth, 1
    {
      var infos := FieldsOf(c, schema);
      columns := columns + [Column(prefix, KeyOf(c, at))];
      ghost var start := Frozen();
      for i := 0 to |infos|
        invariant CollectFields(c, Frozen(), at, infos[i..], prefix, depth, expand)
          == CollectFields(c, start, at, infos, prefix, depth, expand)
      {
        assert infos[i..][1..] == infos[i + 1..];
        CollectField(c, at, infos[i], prefix, depth, expand);
      }
      assert infos[|infos|..] == [];
    }

    /** One turn of the loop. */
    method CollectField(c: Catalog, at: Model, info: Info, prefix: Path, depth: nat, expand: set<string>)
      requires depth < MAX_DEPTH
      modifies this
      ensures Frozen() == QueryPlan.CollectField(c, old(Frozen()), at, info, prefix, depth, expand)
      decreases MAX_DEPTH - depth, 0
    {
      var found := FieldOf(c, at, info.attribute);
      if found.None? {
        exact := false;
        ApplyHints(c, at, info.hints);
        return;
      }
      var field := found.value;
      if field.Scalar? {
        columns := columns + [Column(prefix, info.attribute)];
        return;
      }
      var nested := info.nested;
      if Folded(info, expand) {
        if !field.Forward? {
          exact := false;
          return;
        }
        nested := None;
      }
      if field.Forward? {
        columns := columns + [Column(prefix, field.attname)];
        if nested.None? || depth + 1 >= MAX_DEPTH {
          return;
        }
        var lookup := prefix + [info.attribute];
        select := select + [lookup];
        Collect(c, field.related, nested.value, lookup, depth + 1, {});
      } else {
        var child := new PlanBuilder(field.related);
        if field.Reverse? {
          child.columns := child.columns + [Column([], field.column)];
        }
        assert child.Frozen() == NewChild(field);
        if nested.Some? && depth + 1 < MAX_DEPTH {
          child.Collect(c, field.related, nested.value, [], depth + 1, {});
        } else {
          child.exact := false;
        }
        prefetch := prefetch + [(prefix + [info.attribute], child.Frozen())];
      }
    }
  }

  /** query_plan, without its cache. */
  method MakePlan(c: Catalog, model: Model, schema: Schema, expand: set<string>, hints: seq<Path>) returns (plan: Plan)
    ensures plan == QueryPlanOf(c, model, schema, expand, hints)
  {
    var builder := new PlanBuilder(model);
    builder.Collect(c, model, schema, [], 0, expand);
    builder.ApplyHints(c, model, hints);
    plan := builder.Frozen();
  }
}
