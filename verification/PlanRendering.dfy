/** Rendering objects from full rows, and rendering them from what a plan loads. */
module PlanRendering {
  import opened QueryPlan

  // --- The reference: rendering from full rows ----------------------------------------------

  /** Rows by model and key, and the ordered keys on the other side of each to-many relation. */
  datatype Store = Store(rows: map<(Model, nat), map<Attr, Option<nat>>>, related: map<(Model, Attr, nat), seq<nat>>)

  /** `Whole` is what a resolver reads: the row and the relations it declares. `Cut` stands for
      what lies beyond the depth the rendering was followed to. */
  datatype Json =
    | Value(value: Option<nat>)
    | Whole(row: map<Attr, Option<nat>>, declared: seq<Json>)
    | Object(fields: seq<(string, Json)>)
    | Array(items: seq<Json>)
    | Null
    | Cut
    | NotLoaded

  function RowOf(db: Store, model: Model, pk: nat): map<Attr, Option<nat>> {
    if (model, pk) in db.rows then db.rows[(model, pk)] else map[]
  }

  function CellOf(db: Store, model: Model, pk: nat, attname: Attr): Option<nat> {
    var row := RowOf(db, model, pk);
    if attname in row then row[attname] else None
  }

  function OthersOf(db: Store, model: Model, attr: Attr, pk: nat): seq<nat> {
    if (model, attr, pk) in db.related then db.related[(model, attr, pk)] else []
  }

  /** The objects at the end of a declared path, whole. */
  function Read(c: Catalog, db: Store, model: Model, pk: nat, path: Path): Json
    decreases |path|
  {
    if path == [] then Whole(RowOf(db, model, pk), [])
    else match FieldOf(c, model, path[0])
      case None => Null
      case Some(Scalar) => Null
      case Some(Forward(related, attname)) =>
        var key := CellOf(db, model, pk, attname);
        if key.None? then Null else Read(c, db, related, key.value, path[1..])
      case Some(many) =>
        var keys := OthersOf(db, model, path[0], pk);
        Array(seq(|keys|, i requires 0 <= i < |keys| => Read(c, db, many.related, keys[i], path[1..])))
  }

  function ReadAll(c: Catalog, db: Store, model: Model, pk: nat, paths: seq<Path>): seq<Json> {
    seq(|paths|, i requires 0 <= i < |paths| => Read(c, db, model, pk, paths[i]))
  }

  /** Rendering with everything at hand, followed to `limit` levels. */
  function Render(c: Catalog, db: Store, model: Model, pk: nat, schema: Schema, depth: nat, limit: nat,
                  expand: set<string>): Json
    requires depth < limit
    decreases limit - depth, 3, 0
  {
    Object(RenderFields(c, db, model, pk, FieldsOf(c, schema), depth, limit, expand))
  }

  function RenderFields(c: Catalog, db: Store, model: Model, pk: nat, infos: seq<Info>, depth: nat, limit: nat,
                        expand: set<string>):
    seq<(string, Json)>
    requires depth < limit
    decreases limit - depth, 2, |infos|
  {
    if infos == [] then []
    else [(infos[0].name, RenderField(c, db, model, pk, infos[0], depth, limit, expand))]
         + RenderFields(c, db, model, pk, infos[1..], depth, limit, expand)
  }

  function RenderField(c: Catalog, db: Store, model: Model, pk: nat, info: Info, depth: nat, limit: nat,
                       expand: set<string>): Json
    requires depth < limit
    decreases limit - depth, 1, 0
  {
    match FieldOf(c, model, info.attribute)
    case None => Whole(RowOf(db, model, pk), ReadAll(c, db, model, pk, info.hints))
    case Some(Scalar) => Value(CellOf(db, model, pk, info.attribute))
    case Some(Forward(related, attname)) =>
      var key := CellOf(db, model, pk, attname);
      if info.nested.None? || Folded(info, expand) then Value(key)
      else if key.None? then Null
      else if depth + 1 >= limit then Cut
      else Render(c, db, related, key.value, info.nested.value, depth + 1, limit, {})
    case Some(many) =>
      if Folded(info, expand) then Whole(RowOf(db, model, pk), [])
      else RenderMany(c, db, OthersOf(db, model, info.attribute, pk), info.nested, many.related, depth, limit)
  }

  function RenderMany(c: Catalog, db: Store, keys: seq<nat>, nested: Option<Schema>, related: Model, depth: nat,
                      limit: nat): Json
    requires depth < limit
    decreases limit - depth, 0, 0
  {
    if nested.None? then Array(seq(|keys|, i requires 0 <= i < |keys| => Whole(RowOf(db, related, keys[i]), [])))
    else if depth + 1 >= limit then Cut
    else
      Array(seq(|keys|, i requires 0 <= i < |keys| =>
                  Render(c, db, related, keys[i], nested.value, depth + 1, limit, {})))
  }

  // --- What a plan loads ------------------------------------------------------------------------

  /** Objects loaded together: by the query of `plan`, at its join path `at`. `extra` are the
      forced prefetches that go on from here. */
  datatype View = View(plan: Plan, at: Path, extra: seq<Path>)

  function RootView(plan: Plan): View {
    View(plan, [], plan.forcedPrefetch)
  }

  /** Rows of a bare query. */
  function WholeRows(model: Model, extra: seq<Path>): View {
    View(NewPlan(model).(exact := false), [], extra)
  }

  /** What is left of the lookups that go through `attr`. */
  function Through(lookups: seq<Path>, attr: Attr): seq<Path> {
    if lookups == [] then []
    else (if lookups[0] != [] && lookups[0][0] == attr then [lookups[0][1..]] else []) + Through(lookups[1..], attr)
  }

  lemma {:induction false} ThroughHolds(lookups: seq<Path>, attr: Attr, rest: Path)
    ensures rest in Through(lookups, attr) <==> [attr] + rest in lookups
  {
    if lookups != [] {
      ThroughHolds(lookups[1..], attr, rest);
      assert ([attr] + rest)[1..] == rest;
      assert lookups[0] != [] ==> lookups[0] == [lookups[0][0]] + lookups[0][1..];
    }
  }

  predicate Joins(lookups: seq<Path>, path: Path) {
    exists lookup :: lookup in lookups && path <= lookup
  }

  /** A join joins everything on its way. */
  predicate IsJoined(plan: Plan, path: Path) {
    Joins(plan.select, path) || Joins(plan.forcedSelect, path)
  }

  /** A lookup that was seen before is skipped when it is bare, and refused when it brings a query
      of its own. */
  datatype Lookup = Absent | Clash | Once(plan: Plan)

  function LookUp(prefetch: seq<(Path, Plan)>, only: bool, path: Path): Lookup {
    if prefetch == [] then Absent
    else if prefetch[0].0 != path then LookUp(prefetch[1..], only, path)
    else if exists entry :: entry in prefetch[1..] && entry.0 == path && !IsBare(entry.1, only) then Clash
    else Once(prefetch[0].1)
  }

  lemma {:induction false} NotSeen(prefetch: seq<(Path, Plan)>, only: bool, path: Path)
    requires forall entry | entry in prefetch :: entry.0 != path
    ensures LookUp(prefetch, only, path) == Absent
  {
    if prefetch != [] { NotSeen(prefetch[1..], only, path); }
  }

  function FollowForward(v: View, attr: Attr, related: Model): Option<View> {
    var extra := Through(v.extra, attr);
    if IsJoined(v.plan, v.at + [attr]) then Some(View(v.plan, v.at + [attr], extra))
    else if extra != [] then Some(WholeRows(related, extra))
    else None
  }

  function FollowMany(v: View, only: bool, attr: Attr, related: Model): Option<View> {
    var extra := Through(v.extra, attr);
    match LookUp(v.plan.prefetch, only, v.at + [attr])
    case Clash => None
    case Once(child) => Some(View(child, [], child.forcedPrefetch + extra))
    case Absent => if extra != [] then Some(WholeRows(related, extra)) else None
  }

  /** A query that names columns of the objects at `at`, or of objects beyond them, defers the others:
      a joined object of which nothing is named is loaded whole. */
  predicate IsMasked(columns: seq<Column>, at: Path) {
    exists column :: column in columns && at <= column.path
  }

  /** The path goes on from `at` along the key `attname`. */
  predicate GoesAlong(c: Catalog, path: Path, at: Path, model: Model, attname: Attr) {
    && |at| < |path| && at <= path && IsForward(c, model, path[|at|])
    && FieldOf(c, model, path[|at|]).value.attname == attname
  }

  /** Besides what is named, the primary key and the keys of relations beyond which something is
      named are loaded. */
  predicate Loads(c: Catalog, columns: seq<Column>, at: Path, model: Model, attname: Attr) {
    || !IsMasked(columns, at)
    || attname == KeyOf(c, model)
    || Column(at, attname) in columns
    || exists column :: column in columns && GoesAlong(c, column.path, at, model, attname)
  }

  predicate HasColumn(c: Catalog, v: View, only: bool, model: Model, attname: Attr) {
    !Restricted(v.plan, only) || Loads(c, v.plan.columns, v.at, model, attname)
  }

  function Attnames(fields: map<Attr, Field>): set<Attr> {
    set a | a in fields && fields[a].Forward? :: fields[a].attname
  }

  function Scalars(fields: map<Attr, Field>): set<Attr> {
    set a | a in fields && fields[a].Scalar?
  }

  function ColumnsOf(c: Catalog, model: Model): set<Attr> {
    if model in c.fields then Scalars(c.fields[model]) + Attnames(c.fields[model]) else {}
  }

  /** No column of the objects is deferred. */
  predicate IsWhole(c: Catalog, v: View, only: bool, model: Model) {
    forall attname | attname in ColumnsOf(c, model) :: HasColumn(c, v, only, model, attname)
  }

  /** The rows of a to-many relation are at hand and can be handed to their parents. */
  predicate HasMany(c: Catalog, v: View, only: bool, attr: Attr, many: Field)
    requires ToMany(many)
  {
    var next := FollowMany(v, only, attr, many.related);
    next.Some? && (many.Reverse? ==> HasColumn(c, next.value, only, many.related, many.column))
  }

  // --- Rendering what was loaded ------------------------------------------------------------------

  function PlannedRead(c: Catalog, db: Store, v: View, only: bool, model: Model, pk: nat, path: Path): Json
    decreases |path|
  {
    if path == [] then if IsWhole(c, v, only, model) then Whole(RowOf(db, model, pk), []) else NotLoaded
    else match FieldOf(c, model, path[0])
      case None => Null
      case Some(Scalar) => Null
      case Some(Forward(related, attname)) =>
        var key := CellOf(db, model, pk, attname);
        if !HasColumn(c, v, only, model, attname) then NotLoaded
        else if key.None? then Null
        else if FollowForward(v, path[0], related).None? then NotLoaded
        else PlannedRead(c, db, FollowForward(v, path[0], related).value, only, related, key.value, path[1..])
      case Some(many) =>
        var keys := OthersOf(db, model, path[0], pk);
        if !HasMany(c, v, only, path[0], many) then NotLoaded
        else
          var next := FollowMany(v, only, path[0], many.related).value;
          Array(seq(|keys|, i requires 0 <= i < |keys| =>
                      PlannedRead(c, db, next, only, many.related, keys[i], path[1..])))
  }

  function PlannedReadAll(c: Catalog, db: Store, v: View, only: bool, model: Model, pk: nat,
                          paths: seq<Path>): seq<Json>
  {
    seq(|paths|, i requires 0 <= i < |paths| => PlannedRead(c, db, v, only, model, pk, paths[i]))
  }

  /** Rendering an object from what was loaded for it alone: a deferred column or a relation that
      was not fetched is `NotLoaded`. */
  function Planned(c: Catalog, db: Store, v: View, only: bool, model: Model, pk: nat, schema: Schema, depth: nat,
                   expand: set<string>): Json
    requires depth < MAX_DEPTH
    decreases MAX_DEPTH - depth, 3, 0
  {
    Object(PlannedFields(c, db, v, only, model, pk, FieldsOf(c, schema), depth, expand))
  }

  function PlannedFields(c: Catalog, db: Store, v: View, only: bool, model: Model, pk: nat, infos: seq<Info>,
                         depth: nat, expand: set<string>): seq<(string, Json)>
    requires depth < MAX_DEPTH
    decreases MAX_DEPTH - depth, 2, |infos|
  {
    if infos == [] then []
    else [(infos[0].name, PlannedField(c, db, v, only, model, pk, infos[0], depth, expand))]
         + PlannedFields(c, db, v, only, model, pk, infos[1..], depth, expand)
  }

  function PlannedField(c: Catalog, db: Store, v: View, only: bool, model: Model, pk: nat, info: Info, depth: nat,
                        expand: set<string>): Json
    requires depth < MAX_DEPTH
    decreases MAX_DEPTH - depth, 1, 0
  {
    var attr := info.attribute;
    match FieldOf(c, model, attr)
    case None =>
      if !IsWhole(c, v, only, model) then NotLoaded
      else Whole(RowOf(db, model, pk), PlannedReadAll(c, db, v, only, model, pk, info.hints))
    case Some(Scalar) => if HasColumn(c, v, only, model, attr) then Value(CellOf(db, model, pk, attr)) else NotLoaded
    case Some(Forward(related, attname)) =>
      var key := CellOf(db, model, pk, attname);
      if !HasColumn(c, v, only, model, attname) then NotLoaded
      else if info.nested.None? || Folded(info, expand) then Value(key)
      else if key.None? then Null
      else if depth + 1 >= MAX_DEPTH then Cut
      else if FollowForward(v, attr, related).None? then NotLoaded
      else Planned(c, db, FollowForward(v, attr, related).value, only, related, key.value, info.nested.value,
                   depth + 1, {})
    case Some(many) =>
      if Folded(info, expand) then (if IsWhole(c, v, only, model) then Whole(RowOf(db, model, pk), []) else NotLoaded)
      else if !HasMany(c, v, only, attr, many) then NotLoaded
      else PlannedMany(c, db, FollowMany(v, only, attr, many.related).value, only, OthersOf(db, model, attr, pk),
                       info.nested, many.related, depth)
  }

  /** Where the planner stops, it must at least have loaded whole rows. */
  function PlannedMany(c: Catalog, db: Store, v: View, only: bool, keys: seq<nat>, nested: Option<Schema>,
                       related: Model, depth: nat): Json
    requires depth < MAX_DEPTH
    decreases MAX_DEPTH - depth, 0, 0
  {
    if nested.None? then
      if !IsWhole(c, v, only, related) then NotLoaded
      else Array(seq(|keys|, i requires 0 <= i < |keys| => Whole(RowOf(db, related, keys[i]), [])))
    else if depth + 1 >= MAX_DEPTH then (if IsWhole(c, v, only, related) then Cut else NotLoaded)
    else
      Array(seq(|keys|, i requires 0 <= i < |keys| =>
                  Planned(c, db, v, only, related, keys[i], nested.value, depth + 1, {})))
  }

  // --- When loading is enough -----------------------------------------------------------------------

  /** Everything on a declared path is loaded. */
  ghost predicate CanRead(c: Catalog, v: View, only: bool, model: Model, path: Path)
    decreases |path|
  {
    if path == [] then IsWhole(c, v, only, model)
    else match FieldOf(c, model, path[0])
      case None => true
      case Some(Scalar) => true
      case Some(Forward(related, attname)) =>
        && HasColumn(c, v, only, model, attname) && FollowForward(v, path[0], related).Some?
        && CanRead(c, FollowForward(v, path[0], related).value, only, related, path[1..])
      case Some(many) =>
        && HasMany(c, v, only, path[0], many)
        && CanRead(c, FollowMany(v, only, path[0], many.related).value, only, many.related, path[1..])
  }

  /** Everything rendering will ask for is loaded. */
  ghost predicate Supplies(c: Catalog, v: View, only: bool, model: Model, schema: Schema, depth: nat,
                           expand: set<string>)
    requires depth < MAX_DEPTH
    decreases MAX_DEPTH - depth, 2
  {
    forall info | info in FieldsOf(c, schema) :: SuppliesField(c, v, only, model, info, depth, expand)
  }

  ghost predicate SuppliesField(c: Catalog, v: View, only: bool, model: Model, info: Info, depth: nat,
                                expand: set<string>)
    requires depth < MAX_DEPTH
    decreases MAX_DEPTH - depth, 1
  {
    match FieldOf(c, model, info.attribute)
    case None => IsWhole(c, v, only, model) && forall hint | hint in info.hints :: CanRead(c, v, only, model, hint)
    case Some(Scalar) => HasColumn(c, v, only, model, info.attribute)
    case Some(Forward(related, attname)) =>
      && HasColumn(c, v, only, model, attname)
      && (Nests(info, expand, depth) ==>
            && FollowForward(v, info.attribute, related).Some?
            && Supplies(c, FollowForward(v, info.attribute, related).value, only, related, info.nested.value,
                        depth + 1, {}))
    case Some(many) =>
      if Folded(info, expand) then IsWhole(c, v, only, model)
      else
        && HasMany(c, v, only, info.attribute, many)
        && SuppliesMany(c, FollowMany(v, only, info.attribute, many.related).value, only, many.related, info, depth,
                        expand)
  }

  ghost predicate SuppliesMany(c: Catalog, v: View, only: bool, related: Model, info: Info, depth: nat,
                               expand: set<string>)
    requires depth < MAX_DEPTH && !Folded(info, expand)
    decreases MAX_DEPTH - depth, 0
  {
    if Nests(info, expand, depth) then Supplies(c, v, only, related, info.nested.value, depth + 1, {})
    else IsWhole(c, v, only, related)
  }

  // --- What is supplied renders alike -----------------------------------------------------------------

  lemma {:induction false} ReadsAlike(c: Catalog, db: Store, v: View, only: bool, model: Model, pk: nat, path: Path)
    requires CanRead(c, v, only, model, path)
    ensures PlannedRead(c, db, v, only, model, pk, path) == Read(c, db, model, pk, path)
    decreases |path|
  {
    if path != [] {
      match FieldOf(c, model, path[0])
      case None =>
      case Some(Scalar) =>
      case Some(Forward(related, attname)) =>
        var key := CellOf(db, model, pk, attname);
        if key.Some? {
          ReadsAlike(c, db, FollowForward(v, path[0], related).value, only, related, key.value, path[1..]);
        }
      case Some(many) =>
        var keys, next := OthersOf(db, model, path[0], pk), FollowMany(v, only, path[0], many.related).value;
        forall i | 0 <= i < |keys|
          ensures PlannedRead(c, db, next, only, many.related, keys[i], path[1..])
            == Read(c, db, many.related, keys[i], path[1..])
        {
          ReadsAlike(c, db, next, only, many.related, keys[i], path[1..]);
        }
    }
  }

  lemma ReadsAllAlike(c: Catalog, db: Store, v: View, only: bool, model: Model, pk: nat, paths: seq<Path>)
    requires forall path | path in paths :: CanRead(c, v, only, model, path)
    ensures PlannedReadAll(c, db, v, only, model, pk, paths) == ReadAll(c, db, model, pk, paths)
  {
    forall i | 0 <= i < |paths|
      ensures PlannedRead(c, db, v, only, model, pk, paths[i]) == Read(c, db, model, pk, paths[i])
    {
      ReadsAlike(c, db, v, only, model, pk, paths[i]);
    }
  }

  lemma {:induction false} SuppliedRendersAlike(c: Catalog, db: Store, v: View, only: bool, model: Model, pk: nat,
                                                schema: Schema, depth: nat, expand: set<string>)
    requires depth < MAX_DEPTH && Supplies(c, v, only, model, schema, depth, expand)
    ensures Planned(c, db, v, only, model, pk, schema, depth, expand)
      == Render(c, db, model, pk, schema, depth, MAX_DEPTH, expand)
    decreases MAX_DEPTH - depth, 3, 0
  {
    FieldsRenderAlike(c, db, v, only, model, pk, FieldsOf(c, schema), depth, expand);
  }

  lemma {:induction false} FieldsRenderAlike(c: Catalog, db: Store, v: View, only: bool, model: Model, pk: nat,
                                             infos: seq<Info>, depth: nat, expand: set<string>)
    requires depth < MAX_DEPTH && forall info | info in infos :: SuppliesField(c, v, only, model, info, depth, expand)
    ensures PlannedFields(c, db, v, only, model, pk, infos, depth, expand)
      == RenderFields(c, db, model, pk, infos, depth, MAX_DEPTH, expand)
    decreases MAX_DEPTH - depth, 2, |infos|
  {
    if infos != [] {
      FieldRendersAlike(c, db, v, only, model, pk, infos[0], depth, expand);
      FieldsRenderAlike(c, db, v, only, model, pk, infos[1..], depth, expand);
    }
  }

  lemma {:induction false} FieldRendersAlike(c: Catalog, db: Store, v: View, only: bool, model: Model, pk: nat,
                                             info: Info, depth: nat, expand: set<string>)
    requires depth < MAX_DEPTH && SuppliesField(c, v, only, model, info, depth, expand)
    ensures PlannedField(c, db, v, only, model, pk, info, depth, expand)
      == RenderField(c, db, model, pk, info, depth, MAX_DEPTH, expand)
    decreases MAX_DEPTH - depth, 1, 0
  {
    match FieldOf(c, model, info.attribute)
    case None => ReadsAllAlike(c, db, v, only, model, pk, info.hints);
    case Some(Scalar) =>
    case Some(Forward(related, attname)) =>
      var key := CellOf(db, model, pk, attname);
      if Nests(info, expand, depth) && key.Some? {
        SuppliedRendersAlike(c, db, FollowForward(v, info.attribute, related).value, only, related, key.value,
                             info.nested.value, depth + 1, {});
      }
    case Some(many) =>
      if !Folded(info, expand) {
        var keys := OthersOf(db, model, info.attribute, pk);
        ManyRendersAlike(c, db, FollowMany(v, only, info.attribute, many.related).value, only, keys, info,
                         many.related, depth, expand);
      }
  }

  lemma {:induction false} ManyRendersAlike(c: Catalog, db: Store, v: View, only: bool, keys: seq<nat>, info: Info,
                                            related: Model, depth: nat, expand: set<string>)
    requires depth < MAX_DEPTH && !Folded(info, expand) && SuppliesMany(c, v, only, related, info, depth, expand)
    ensures PlannedMany(c, db, v, only, keys, info.nested, related, depth)
      == RenderMany(c, db, keys, info.nested, related, depth, MAX_DEPTH)
    decreases MAX_DEPTH - depth, 0, 0
  {
    if Nests(info, expand, depth) {
      forall i | 0 <= i < |keys|
        ensures Planned(c, db, v, only, related, keys[i], info.nested.value, depth + 1, {})
             == Render(c, db, related, keys[i], info.nested.value, depth + 1, MAX_DEPTH, {})
      {
        SuppliedRendersAlike(c, db, v, only, related, keys[i], info.nested.value, depth + 1, {});
      }
    }
  }

  // --- What renders alike is supplied -----------------------------------------------------------------

  /** A store in which every relation leads somewhere. */
  ghost function Dense(c: Catalog): Store {
    Store(map m | m in c.fields :: (m, 0) := (map a | a in Attnames(c.fields[m]) :: Some(0)),
          map m, a | m in c.fields && a in c.fields[m] :: (m, a, 0) := [0])
  }

  lemma DenseLeadsSomewhere(c: Catalog, model: Model, attr: Attr)
    requires FieldOf(c, model, attr).Some?
    ensures var f := FieldOf(c, model, attr).value;
      && (f.Forward? ==> CellOf(Dense(c), model, 0, f.attname) == Some(0))
      && OthersOf(Dense(c), model, attr, 0) == [0]
  {
    var f := FieldOf(c, model, attr).value;
    if f.Forward? { assert f.attname in Attnames(c.fields[model]); }
    assert (model, 0) in Dense(c).rows && (model, attr, 0) in Dense(c).related;
  }

  lemma {:induction false} EqualReadsAreLoaded(c: Catalog, v: View, only: bool, model: Model, path: Path)
    requires PlannedRead(c, Dense(c), v, only, model, 0, path) == Read(c, Dense(c), model, 0, path)
    ensures CanRead(c, v, only, model, path)
    decreases |path|
  {
    if path != [] {
      match FieldOf(c, model, path[0])
      case None =>
      case Some(Scalar) =>
      case Some(Forward(related, attname)) =>
        DenseLeadsSomewhere(c, model, path[0]);
        ReadIsLoaded(c, Dense(c), related, 0, path[1..]);
        EqualReadsAreLoaded(c, FollowForward(v, path[0], related).value, only, related, path[1..]);
      case Some(many) =>
        DenseLeadsSomewhere(c, model, path[0]);
        var planned, full := PlannedRead(c, Dense(c), v, only, model, 0, path), Read(c, Dense(c), model, 0, path);
        assert planned.items[0] == full.items[0];
        EqualReadsAreLoaded(c, FollowMany(v, only, path[0], many.related).value, only, many.related, path[1..]);
    }
  }

  lemma {:induction false} ReadIsLoaded(c: Catalog, db: Store, model: Model, pk: nat, path: Path)
    ensures !Read(c, db, model, pk, path).NotLoaded?
    decreases |path|
  {
    if path != [] {
      match FieldOf(c, model, path[0])
      case Some(Forward(related, attname)) =>
        var key := CellOf(db, model, pk, attname);
        if key.Some? { ReadIsLoaded(c, db, related, key.value, path[1..]); }
      case Some(_) =>
      case None =>
    }
  }

  lemma {:induction false} AlikeIsSupplied(c: Catalog, v: View, only: bool, model: Model, schema: Schema, depth: nat,
                                           expand: set<string>)
    requires depth < MAX_DEPTH
    requires Planned(c, Dense(c), v, only, model, 0, schema, depth, expand)
      == Render(c, Dense(c), model, 0, schema, depth, MAX_DEPTH, expand)
    ensures Supplies(c, v, only, model, schema, depth, expand)
    decreases MAX_DEPTH - depth, 3, 0
  {
    FieldsAreSupplied(c, v, only, model, FieldsOf(c, schema), depth, expand);
  }

  lemma {:induction false} FieldsAreSupplied(c: Catalog, v: View, only: bool, model: Model, infos: seq<Info>,
                                             depth: nat, expand: set<string>)
    requires depth < MAX_DEPTH
    requires PlannedFields(c, Dense(c), v, only, model, 0, infos, depth, expand)
          == RenderFields(c, Dense(c), model, 0, infos, depth, MAX_DEPTH, expand)
    ensures forall info | info in infos :: SuppliesField(c, v, only, model, info, depth, expand)
    decreases MAX_DEPTH - depth, 2, |infos|
  {
    if infos != [] {
      var planned := PlannedFields(c, Dense(c), v, only, model, 0, infos, depth, expand);
      var full := RenderFields(c, Dense(c), model, 0, infos, depth, MAX_DEPTH, expand);
      assert planned[0] == full[0];
      assert PlannedFields(c, Dense(c), v, only, model, 0, infos[1..], depth, expand) == planned[1..];
      assert RenderFields(c, Dense(c), model, 0, infos[1..], depth, MAX_DEPTH, expand) == full[1..];
      FieldIsSupplied(c, v, only, model, infos[0], depth, expand);
      FieldsAreSupplied(c, v, only, model, infos[1..], depth, expand);
    }
  }

  lemma {:induction false} FieldIsSupplied(c: Catalog, v: View, only: bool, model: Model, info: Info, depth: nat,
                                           expand: set<string>)
    requires depth < MAX_DEPTH
    requires PlannedField(c, Dense(c), v, only, model, 0, info, depth, expand)
          == RenderField(c, Dense(c), model, 0, info, depth, MAX_DEPTH, expand)
    ensures SuppliesField(c, v, only, model, info, depth, expand)
    decreases MAX_DEPTH - depth, 1, 0
  {
    var attr := info.attribute;
    match FieldOf(c, model, attr)
    case None => HintsAreSupplied(c, v, only, model, info);
    case Some(Scalar) =>
    case Some(Forward(related, attname)) =>
      DenseLeadsSomewhere(c, model, attr);
      if Nests(info, expand, depth) {
        AlikeIsSupplied(c, FollowForward(v, attr, related).value, only, related, info.nested.value, depth + 1, {});
      }
    case Some(many) =>
      DenseLeadsSomewhere(c, model, attr);
      if !Folded(info, expand) {
        ManyIsSupplied(c, FollowMany(v, only, attr, many.related).value, only, info, many.related, depth, expand);
      }
  }

  lemma HintsAreSupplied(c: Catalog, v: View, only: bool, model: Model, info: Info)
    requires PlannedReadAll(c, Dense(c), v, only, model, 0, info.hints) == ReadAll(c, Dense(c), model, 0, info.hints)
    ensures forall hint | hint in info.hints :: CanRead(c, v, only, model, hint)
  {
    forall hint | hint in info.hints ensures CanRead(c, v, only, model, hint) {
      var i :| 0 <= i < |info.hints| && info.hints[i] == hint;
      assert PlannedReadAll(c, Dense(c), v, only, model, 0, info.hints)[i]
        == ReadAll(c, Dense(c), model, 0, info.hints)[i];
      EqualReadsAreLoaded(c, v, only, model, hint);
    }
  }

  lemma {:induction false} ManyIsSupplied(c: Catalog, v: View, only: bool, info: Info, related: Model, depth: nat,
                                          expand: set<string>)
    requires depth < MAX_DEPTH && !Folded(info, expand)
    requires PlannedMany(c, Dense(c), v, only, [0], info.nested, related, depth)
          == RenderMany(c, Dense(c), [0], info.nested, related, depth, MAX_DEPTH)
    ensures SuppliesMany(c, v, only, related, info, depth, expand)
    decreases MAX_DEPTH - depth, 0, 0
  {
    if Nests(info, expand, depth) {
      var planned := PlannedMany(c, Dense(c), v, only, [0], info.nested, related, depth);
      var full := RenderMany(c, Dense(c), [0], info.nested, related, depth, MAX_DEPTH);
      assert planned.items[0] == full.items[0];
      AlikeIsSupplied(c, v, only, related, info.nested.value, depth + 1, {});
    }
  }

  /** Every object of every store renders from what was loaded for it exactly as it does from full
      rows: nothing is read that was not loaded. */
  ghost predicate Faithful(c: Catalog, v: View, only: bool, model: Model, schema: Schema, expand: set<string>) {
    forall db: Store, pk: nat ::
      Planned(c, db, v, only, model, pk, schema, 0, expand) == Render(c, db, model, pk, schema, 0, MAX_DEPTH, expand)
  }

  /** For any plan at all, derived or not: everything renders alike if and only if everything
      rendering asks for is loaded. */
  lemma FaithfulExactlyWhenSupplied(c: Catalog, v: View, only: bool, model: Model, schema: Schema, expand: set<string>)
    ensures Faithful(c, v, only, model, schema, expand) <==> Supplies(c, v, only, model, schema, 0, expand)
  {
    if Supplies(c, v, only, model, schema, 0, expand) {
      forall db: Store, pk: nat
        ensures Planned(c, db, v, only, model, pk, schema, 0, expand)
          == Render(c, db, model, pk, schema, 0, MAX_DEPTH, expand)
      {
        SuppliedRendersAlike(c, db, v, only, model, pk, schema, 0, expand);
      }
    }
    if Faithful(c, v, only, model, schema, expand) {
      AlikeIsSupplied(c, v, only, model, schema, 0, expand);
    }
  }
}
