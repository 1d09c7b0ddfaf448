/** The observable-state tracker: what an episode may tell the retriever about itself. */
module Tracker {
  import opened Wrappers
  import opened Text
  import opened JsonValues
  import opened Registry

  /** The seven cumulative observation lists. */
  datatype Kind = FieldName | SemanticId | ValueType | Unit | Dimension | Qualifier | Identifier

  datatype State = State(
    originalQuery: string,
    routes: seq<string>,
    fieldNames: seq<string>,
    semanticIds: seq<string>,
    valueTypes: seq<string>,
    units: seq<string>,
    dimensions: seq<string>,
    qualifiers: seq<string>,
    identifiers: seq<string>,
    lastStatus: string,
    lastError: Option<string>,
    incomplete: bool)

  function Listed(t: State, kind: Kind): seq<string> {
    match kind
    case FieldName => t.fieldNames
    case SemanticId => t.semanticIds
    case ValueType => t.valueTypes
    case Unit => t.units
    case Dimension => t.dimensions
    case Qualifier => t.qualifiers
    case Identifier => t.identifiers
  }

  /** One executed call as the tracker is told about it. */
  datatype Event = Event(route: string, observation: Object, error: Option<string>, incomplete: bool)

  datatype Rejection = InvalidInput | BadStatus | InvalidResult

  const STATUS_VALUES: set<string> := {"not_run", "ok", "error", "blocked", "executed"}

  // ---- Validation ------------------------------------------------------------------

  predicate NonEmptyItems(xs: seq<string>) {
    forall i | 0 <= i < |xs| :: xs[i] != ""
  }

  predicate ListValid(xs: seq<string>) {
    NonEmptyItems(xs) && xs == SortedSet(Elements(xs))
  }

  predicate RoutesValid(xs: seq<string>) {
    NonEmptyItems(xs) && |xs| == |Elements(xs)|
  }

  /** `validate_state` accepts: non-empty entries, unique routes, canonical lists, a
      known status and a normalized error class. */
  predicate Valid(t: State) {
    && !Blank(t.originalQuery)
    && RoutesValid(t.routes)
    && (forall kind: Kind :: ListValid(Listed(t, kind)))
    && t.lastStatus in STATUS_VALUES
    && (t.lastError.Some? ==> t.lastError.value != "" && ':' !in t.lastError.value)
  }

  function Empty(query: string): Option<State> {
    if Strip(query) == "" then None
    else Some(State(Strip(query), [], [], [], [], [], [], [], [], "not_run", None, true))
  }

  // ---- What one observed field contributes --------------------------------------------

  /** Output metadata by field name; a later field of the same name wins. */
  function FieldFor(fields: seq<FieldSpec>, name: string): Option<FieldSpec> {
    if fields == [] then None
    else if fields[|fields| - 1].name == name then Some(fields[|fields| - 1])
    else FieldFor(fields[..|fields| - 1], name)
  }

  function Metadata(ep: Option<Endpoint>, name: string): Option<FieldSpec> {
    if ep.None? then None else FieldFor(ep.value.outputFields, name)
  }

  predicate EndsWith(s: string, suffix: string) {
    |suffix| <= |s| && s[|s| - |suffix|..] == suffix
  }

  predicate IsIdentifier(field: Option<FieldSpec>, name: string) {
    EndsWith(name, "_id")
    || (field.Some? && (field.value.identifier
        || (field.value.semanticId.Some?
            && (EndsWith(field.value.semanticId.value, ".id")
                || EndsWith(field.value.semanticId.value, ".identifier")))))
  }

  function IdentifierValue(render: Renderer, field: Option<FieldSpec>, name: string, v: Json): Option<string> {
    if !(v.Str? || IsNumber(v) || v.Bool?) || !IsIdentifier(field, name) then None
    else
      var rendered := Strip(render(v));
      if rendered == "" then None else Some(rendered)
  }

  function Opt(o: Option<string>): set<string> {
    match o case None => {} case Some(s) => {s}
  }

  function NonEmpty(o: Option<string>): set<string> {
    Opt(o) - {""}
  }

  /** The entries one field of an observation adds to one list. */
  function Atoms(render: Renderer, ep: Option<Endpoint>, kind: Kind, name: string, v: Json): set<string> {
    var field := Metadata(ep, name);
    match kind
    case FieldName => {name}
    case ValueType => {TypeLabel(v)}
    case SemanticId => if field.Some? then NonEmpty(field.value.semanticId) else {}
    case Unit => if field.Some? then NonEmpty(field.value.unit) else {}
    case Dimension => if field.Some? then Opt(field.value.dimension) else {}
    case Qualifier =>
      if field.Some? then set q | q in field.value.qualifiers :: q + "=" + field.value.qualifiers[q] else {}
    case Identifier => if ep.Some? then Opt(IdentifierValue(render, field, name, v)) else {}
  }

  /** The entries a set of observed fields adds to one list. */
  function FieldsAdd(render: Renderer, ep: Option<Endpoint>, kind: Kind, names: set<string>, obs: Object): set<string>
    requires names <= obs.Keys
  {
    set k, a | k in names && a in Atoms(render, ep, kind, k, obs[k]) :: a
  }

  function EventAdds(render: Renderer, reg: Catalog, kind: Kind, ev: Event): set<string> {
    FieldsAdd(render, Resolve(reg, ev.route), kind, ev.observation.Keys, ev.observation)
  }

  // ---- One update -------------------------------------------------------------------------

  function ErrorClass(error: Option<string>): Option<string> {
    if error.None? || Strip(error.value) == "" then None
    else
      var v := Strip(error.value);
      Some(v[..IndexOf(v, ':')])
  }

  predicate StatusKnown(obs: Object) {
    "status" in obs && obs["status"].Str? && obs["status"].s in STATUS_VALUES
  }

  function Grown(render: Renderer, reg: Catalog, t: State, kind: Kind, ev: Event): seq<string> {
    SortedSet(Elements(Listed(t, kind)) + EventAdds(render, reg, kind, ev))
  }

  function Updated(render: Renderer, reg: Catalog, t: State, ev: Event): State
    requires StatusKnown(ev.observation)
  {
    State(
      t.originalQuery,
      if Resolve(reg, ev.route).Some? && ev.route !in t.routes then t.routes + [ev.route] else t.routes,
      Grown(render, reg, t, FieldName, ev),
      Grown(render, reg, t, SemanticId, ev),
      Grown(render, reg, t, ValueType, ev),
      Grown(render, reg, t, Unit, ev),
      Grown(render, reg, t, Dimension, ev),
      Grown(render, reg, t, Qualifier, ev),
      Grown(render, reg, t, Identifier, ev),
      ev.observation["status"].s,
      ErrorClass(ev.error),
      ev.incomplete)
  }

  function Update(render: Renderer, reg: Catalog, t: State, ev: Event): Result<State, Rejection> {
    if !Valid(t) then Failure(InvalidInput)
    else if !StatusKnown(ev.observation) then Failure(BadStatus)
    else if !Valid(Updated(render, reg, t, ev)) then Failure(InvalidResult)
    else Success(Updated(render, reg, t, ev))
  }

  /** The seven sets one update works on. */
  datatype Gathered = Gathered(
    fieldNames: set<string>, semanticIds: set<string>, valueTypes: set<string>, units: set<string>,
    dimensions: set<string>, qualifiers: set<string>, identifiers: set<string>)

  function Held(g: Gathered, kind: Kind): set<string> {
    match kind
    case FieldName => g.fieldNames
    case SemanticId => g.semanticIds
    case ValueType => g.valueTypes
    case Unit => g.units
    case Dimension => g.dimensions
    case Qualifier => g.qualifiers
    case Identifier => g.identifiers
  }

  /** The metadata one observed field adds to the sets. */
  method AddMetadata(render: Renderer, ep: Option<Endpoint>, before: Gathered, name: string, v: Json)
    returns (semanticIds: set<string>, units: set<string>, dimensions: set<string>, qualifiers: set<string>)
    ensures semanticIds == before.semanticIds + Atoms(render, ep, SemanticId, name, v)
    ensures units == before.units + Atoms(render, ep, Unit, name, v)
    ensures dimensions == before.dimensions + Atoms(render, ep, Dimension, name, v)
    ensures qualifiers == before.qualifiers + Atoms(render, ep, Qualifier, name, v)
  {
    hide Metadata;
    semanticIds, units, dimensions, qualifiers :=
      before.semanticIds, before.units, before.dimensions, before.qualifiers;
    var field := Metadata(ep, name);
    if field.Some? {
      var f := field.value;
      if f.semanticId.Some? && f.semanticId.value != "" {
        semanticIds := semanticIds + {f.semanticId.value};
      }
      if f.unit.Some? && f.unit.value != "" {
        units := units + {f.unit.value};
      }
      if f.dimension.Some? {
        dimensions := dimensions + {f.dimension.value};
      }
      qualifiers := qualifiers + set q | q in f.qualifiers :: q + "=" + f.qualifiers[q];
    }
  }

  /** What one observed field adds to the sets. */
  method AddField(render: Renderer, ep: Option<Endpoint>, before: Gathered, name: string, v: Json)
    returns (g: Gathered)
    ensures forall kind :: Held(g, kind) == Held(before, kind) + Atoms(render, ep, kind, name, v)
  {
    hide TypeLabel, IdentifierValue, Metadata;
    var semanticIds, units, dimensions, qualifiers := AddMetadata(render, ep, before, name, v);
    var identifier := if ep.Some? then IdentifierValue(render, Metadata(ep, name), name, v) else None;
    g := Gathered(
      before.fieldNames + {name}, semanticIds, before.valueTypes + {TypeLabel(v)}, units, dimensions, qualifiers,
      if identifier.Some? then before.identifiers + {identifier.value} else before.identifiers);
  }

  /** The loop over observed fields, growing the sets that start as the current lists. */
  method Gather(render: Renderer, ep: Option<Endpoint>, t: State, obs: Object) returns (g: Gathered)
    ensures forall kind :: Held(g, kind) == Elements(Listed(t, kind)) + FieldsAdd(render, ep, kind, obs.Keys, obs)
  {
    g := Gathered(
      Elements(t.fieldNames), Elements(t.semanticIds), Elements(t.valueTypes), Elements(t.units),
      Elements(t.dimensions), Elements(t.qualifiers), Elements(t.identifiers));
    var todo := obs.Keys;
    ghost var done: set<string> := {};
    NothingAdded(render, ep, t, obs, g);
    while todo != {}
      invariant todo <= obs.Keys && done == obs.Keys - todo
      invariant forall kind ::
        Held(g, kind) == Elements(Listed(t, kind)) + FieldsAdd(render, ep, kind, done, obs)
      decreases todo
    {
      hide Held, Listed, Elements, FieldsAdd, Atoms;
      var name :| name in todo;
      g := AddField(render, ep, g, name, obs[name]);
      forall kind: Kind
        ensures FieldsAdd(render, ep, kind, done + {name}, obs)
             == FieldsAdd(render, ep, kind, done, obs) + Atoms(render, ep, kind, name, obs[name])
      {
        FieldsAddOne(render, ep, kind, done, name, obs);
      }
      todo, done := todo - {name}, done + {name};
    }
    assert done == obs.Keys;
  }

  lemma NothingAdded(render: Renderer, ep: Option<Endpoint>, t: State, obs: Object, g: Gathered)
    requires g == Gathered(
      Elements(t.fieldNames), Elements(t.semanticIds), Elements(t.valueTypes), Elements(t.units),
      Elements(t.dimensions), Elements(t.qualifiers), Elements(t.identifiers))
    ensures forall kind :: Held(g, kind) == Elements(Listed(t, kind)) + FieldsAdd(render, ep, kind, {}, obs)
  {
    hide Elements, Atoms;
    forall kind: Kind
      ensures Held(g, kind) == Elements(Listed(t, kind)) + FieldsAdd(render, ep, kind, {}, obs)
    {
      assert FieldsAdd(render, ep, kind, {}, obs) == {};
    }
  }

  /** `update_state`: check, gather, re-sort, check again. */
  method UpdateState(render: Renderer, reg: Catalog, t: State, ev: Event) returns (r: Result<State, Rejection>)
    ensures r == Update(render, reg, t, ev)
  {
    if !Valid(t) {
      return Failure(InvalidInput);
    }
    var endpoint := Resolve(reg, ev.route);
    var routes := t.routes;
    if endpoint.Some? && ev.route !in routes {
      routes := routes + [ev.route];
    }
    var g := Gather(render, endpoint, t, ev.observation);
    if !StatusKnown(ev.observation) {
      return Failure(BadStatus);
    }
    var updated := State(
      t.originalQuery, routes,
      SortedSet(Held(g, FieldName)), SortedSet(Held(g, SemanticId)), SortedSet(Held(g, ValueType)),
      SortedSet(Held(g, Unit)), SortedSet(Held(g, Dimension)), SortedSet(Held(g, Qualifier)),
      SortedSet(Held(g, Identifier)),
      ev.observation["status"].s, ErrorClass(ev.error), ev.incomplete);
    assert updated == Updated(render, reg, t, ev);
    if !Valid(updated) {
      return Failure(InvalidResult);
    }
    return Success(updated);
  }

  lemma FieldsAddOne(render: Renderer, ep: Option<Endpoint>, kind: Kind, names: set<string>, name: string, obs: Object)
    requires names <= obs.Keys && name in obs
    ensures FieldsAdd(render, ep, kind, names + {name}, obs)
         == FieldsAdd(render, ep, kind, names, obs) + Atoms(render, ep, kind, name, obs[name])
  {
  }

  // ---- Exactly which updates are accepted ----------------------------------------------------

  /** The error text has a class: it does not start with a colon. */
  predicate ErrorNamed(error: Option<string>) {
    error.Some? && Strip(error.value) != "" ==> Strip(error.value)[0] != ':'
  }

  predicate Trackable(ev: Event) {
    StatusKnown(ev.observation) && "" !in ev.observation && ErrorNamed(ev.error)
  }

  lemma ElementsOfSorted(s: set<string>)
    ensures Elements(SortedSet(s)) == s
    ensures SortedSet(Elements(SortedSet(s))) == SortedSet(s)
  {
  }

  lemma ListValidExactly(s: set<string>)
    ensures ListValid(SortedSet(s)) <==> "" !in s
  {
    ElementsOfSorted(s);
    var xs := SortedSet(s);
    if "" in s {
      var i :| 0 <= i < |xs| && xs[i] == "";
    } else {
      assert forall i | 0 <= i < |xs| :: xs[i] in xs;
    }
  }

  lemma MetadataFieldsOk(ep: Option<Endpoint>, name: string)
    requires ep.Some? ==> FieldsOk(ep.value)
    ensures Metadata(ep, name).Some? ==> Metadata(ep, name).value.dimension != Some("")
  {
    if ep.Some? {
      FieldForMember(ep.value.outputFields, name);
    }
  }

  lemma {:induction false} FieldForMember(fields: seq<FieldSpec>, name: string)
    ensures FieldFor(fields, name).Some? ==> exists i :: 0 <= i < |fields| && fields[i] == FieldFor(fields, name).value
  {
    if fields != [] && fields[|fields| - 1].name != name {
      FieldForMember(fields[..|fields| - 1], name);
      if FieldFor(fields, name).Some? {
        var i :| 0 <= i < |fields[..|fields| - 1]| && fields[..|fields| - 1][i] == FieldFor(fields, name).value;
        assert fields[i] == FieldFor(fields, name).value;
      }
    }
  }

  lemma AtomsEmpty(render: Renderer, ep: Option<Endpoint>, kind: Kind, name: string, v: Json)
    requires ep.Some? ==> FieldsOk(ep.value)
    ensures "" in Atoms(render, ep, kind, name, v) <==> kind == FieldName && name == ""
  {
    MetadataFieldsOk(ep, name);
  }

  lemma AddsEmpty(render: Renderer, reg: Catalog, kind: Kind, ev: Event)
    requires WellFormed(reg)
    ensures "" in EventAdds(render, reg, kind, ev) <==> kind == FieldName && "" in ev.observation
  {
    var ep := Resolve(reg, ev.route);
    if ep.Some? {
      ResolvedFieldsOk(reg, ev.route);
    }
    forall k | k in ev.observation {
      AtomsEmpty(render, ep, kind, k, ev.observation[k]);
    }
  }

  lemma GrownValid(render: Renderer, reg: Catalog, t: State, kind: Kind, ev: Event)
    requires WellFormed(reg) && ListValid(Listed(t, kind))
    ensures ListValid(Grown(render, reg, t, kind, ev)) <==> !(kind == FieldName && "" in ev.observation)
  {
    AddsEmpty(render, reg, kind, ev);
    ListValidExactly(Elements(Listed(t, kind)) + EventAdds(render, reg, kind, ev));
  }

  lemma ElementsSnoc(xs: seq<string>, x: string)
    ensures Elements(xs + [x]) == Elements(xs) + {x}
  {
    assert forall y :: y in xs + [x] <==> y in xs || y == x;
  }

  lemma ErrorClassValid(error: Option<string>)
    ensures ErrorNamed(error) <==>
      (ErrorClass(error).Some? ==> ErrorClass(error).value != "" && ':' !in ErrorClass(error).value)
  {
  }

  /** On a valid state and a well-formed catalog, an update is accepted exactly when the
      status is known, no observed field name is empty, and the error text, if any, does
      not start with a colon. */
  lemma UpdateAcceptsExactly(render: Renderer, reg: Catalog, t: State, ev: Event)
    requires WellFormed(reg) && Valid(t)
    ensures Update(render, reg, t, ev).Success? <==> Trackable(ev)
  {
    if StatusKnown(ev.observation) {
      UpdatedListsValid(render, reg, t, ev);
      ErrorClassValid(ev.error);
      RoutesGrow(reg, t.routes, ev.route);
      hide ListValid, Listed, RoutesValid, ErrorNamed, ErrorClass, Grown, Blank;
    }
  }

  lemma UpdatedListsValid(render: Renderer, reg: Catalog, t: State, ev: Event)
    requires WellFormed(reg) && StatusKnown(ev.observation)
    requires forall kind: Kind :: ListValid(Listed(t, kind))
    ensures (forall kind: Kind :: ListValid(Listed(Updated(render, reg, t, ev), kind)))
       <==> "" !in ev.observation
  {
    var u := Updated(render, reg, t, ev);
    forall kind: Kind
      ensures ListValid(Listed(u, kind)) <==> !(kind == FieldName && "" in ev.observation)
    {
      GrownValid(render, reg, t, kind, ev);
      ListedUpdated(render, reg, t, kind, ev);
    }
    hide ListValid, Listed;
    assert "" in ev.observation ==> !ListValid(Listed(u, FieldName));
  }

  lemma ListedUpdated(render: Renderer, reg: Catalog, t: State, kind: Kind, ev: Event)
    requires StatusKnown(ev.observation)
    ensures Listed(Updated(render, reg, t, ev), kind) == Grown(render, reg, t, kind, ev)
  {
    match kind {
      case FieldName =>
      case SemanticId =>
      case ValueType =>
      case Unit =>
      case Dimension =>
      case Qualifier =>
      case Identifier =>
    }
  }

  lemma RoutesGrow(reg: Catalog, routes: seq<string>, route: string)
    requires RoutesValid(routes)
    ensures Resolve(reg, route).Some? && route !in routes ==> RoutesValid(routes + [route])
  {
    if Resolve(reg, route).Some? && route !in routes {
      ElementsSnoc(routes, route);
      assert route !in Elements(routes);
    }
  }

  // ---- Whole runs -----------------------------------------------------------------------------

  function Track(render: Renderer, reg: Catalog, t: State, evs: seq<Event>): Result<State, Rejection> {
    if evs == [] then Success(t)
    else match Track(render, reg, t, evs[..|evs| - 1])
      case Failure(e) => Failure(e)
      case Success(before) => Update(render, reg, before, evs[|evs| - 1])
  }

  function RunAdds(render: Renderer, reg: Catalog, kind: Kind, evs: seq<Event>): set<string> {
    set ev, a | ev in evs && a in EventAdds(render, reg, kind, ev) :: a
  }

  /** Routes of the run that resolve, repetitions included. */
  function RegisteredRoutes(reg: Catalog, evs: seq<Event>): seq<string> {
    if evs == [] then []
    else
      var before, last := RegisteredRoutes(reg, evs[..|evs| - 1]), evs[|evs| - 1];
      if Resolve(reg, last.route).Some? then before + [last.route] else before
  }

  lemma RunAddsSnoc(render: Renderer, reg: Catalog, kind: Kind, evs: seq<Event>)
    requires evs != []
    ensures RunAdds(render, reg, kind, evs)
         == RunAdds(render, reg, kind, evs[..|evs| - 1]) + EventAdds(render, reg, kind, evs[|evs| - 1])
  {
    assert evs == evs[..|evs| - 1] + [evs[|evs| - 1]];
  }

  /** The state is a canonical form of the run: each list is the sorted listing of
      everything any event contributed, the routes are the first occurrences of the
      resolvable ones, in order, and the rest describes the last event. */
  ghost predicate Canonical(render: Renderer, reg: Catalog, t: State, evs: seq<Event>) {
    && (forall kind: Kind :: Listed(t, kind) == SortedSet(RunAdds(render, reg, kind, evs)))
    && t.routes == Dedup(RegisteredRoutes(reg, evs))
    && (if evs == [] then t.lastStatus == "not_run" && t.lastError == None && t.incomplete
        else Describes(t, evs[|evs| - 1]))
  }

  ghost predicate Describes(t: State, ev: Event) {
    && "status" in ev.observation && ev.observation["status"] == Str(t.lastStatus)
    && t.incomplete == ev.incomplete
    && (t.lastError.None? <==> ev.error.None? || Blank(ev.error.value))
    && (t.lastError.Some? ==> IsHead(t.lastError.value, Strip(ev.error.value)))
  }

  /** `head` is the part of `text` before its first colon, or all of it. */
  ghost predicate IsHead(head: string, text: string) {
    head <= text && ':' !in head && (|head| < |text| ==> text[|head|] == ':')
  }

  lemma ErrorClassMeaning(error: Option<string>)
    ensures ErrorClass(error).None? <==> error.None? || Blank(error.value)
    ensures ErrorClass(error).Some? ==> IsHead(ErrorClass(error).value, Strip(error.value))
  {
    if error.Some? {
      StripMeaning(error.value);
    }
  }

  lemma EmptyCanonical(render: Renderer, reg: Catalog, query: string)
    requires !Blank(query)
    ensures Empty(query).Some? && Valid(Empty(query).value)
    ensures Canonical(render, reg, Empty(query).value, [])
  {
    StripMeaning(query);
    StripAgain(query);
    var t := Empty(query).value;
    forall kind: Kind
      ensures Listed(t, kind) == SortedSet(RunAdds(render, reg, kind, [])) && ListValid(Listed(t, kind))
    {
      assert RunAdds(render, reg, kind, []) == {};
      assert Elements<string>([]) == {};
    }
    assert |Elements<string>([])| == 0;
  }

  lemma GrownCanonical(render: Renderer, reg: Catalog, t: State, evs: seq<Event>, ev: Event, kind: Kind)
    requires Listed(t, kind) == SortedSet(RunAdds(render, reg, kind, evs))
    ensures Grown(render, reg, t, kind, ev) == SortedSet(RunAdds(render, reg, kind, evs + [ev]))
  {
    RunAddsSnoc(render, reg, kind, evs + [ev]);
    assert (evs + [ev])[..|evs|] == evs;
    ElementsOfSorted(RunAdds(render, reg, kind, evs));
  }

  lemma UpdateCanonical(render: Renderer, reg: Catalog, t: State, evs: seq<Event>, ev: Event)
    requires Canonical(render, reg, t, evs) && StatusKnown(ev.observation)
    ensures Canonical(render, reg, Updated(render, reg, t, ev), evs + [ev])
  {
    forall kind: Kind
      ensures Listed(Updated(render, reg, t, ev), kind) == SortedSet(RunAdds(render, reg, kind, evs + [ev]))
    {
      ListedUpdated(render, reg, t, kind, ev);
      GrownCanonical(render, reg, t, evs, ev, kind);
    }
    ErrorClassMeaning(ev.error);
    RoutesCanonical(reg, evs, ev);
  }

  lemma RoutesCanonical(reg: Catalog, evs: seq<Event>, ev: Event)
    ensures var before := Dedup(RegisteredRoutes(reg, evs));
      Dedup(RegisteredRoutes(reg, evs + [ev])) ==
        if Resolve(reg, ev.route).Some? && ev.route !in before then before + [ev.route] else before
  {
    var regs := RegisteredRoutes(reg, evs);
    assert (evs + [ev])[..|evs|] == evs;
    assert (regs + [ev.route])[..|regs|] == regs;
  }

  /** A run of updates from the empty state never rejects exactly when every event is
      trackable, and then ends in the canonical form of the run. */
  lemma {:induction false} TrackIsCanonical(render: Renderer, reg: Catalog, query: string, evs: seq<Event>)
    requires WellFormed(reg) && !Blank(query)
    ensures Empty(query).Some? && Valid(Empty(query).value)
    ensures Track(render, reg, Empty(query).value, evs).Success? <==> forall ev | ev in evs :: Trackable(ev)
    ensures Track(render, reg, Empty(query).value, evs).Success? ==>
      var t := Track(render, reg, Empty(query).value, evs).value;
      Valid(t) && Canonical(render, reg, t, evs)
  {
    EmptyCanonical(render, reg, query);
    hide Canonical, Valid, Empty, Trackable, Updated;
    if evs != [] {
      var init, last := evs[..|evs| - 1], evs[|evs| - 1];
      assert evs == init + [last];
      TrackIsCanonical(render, reg, query, init);
      var before := Track(render, reg, Empty(query).value, init);
      if before.Success? {
        TrackNext(render, reg, before.value, init, last);
      }
    }
  }

  lemma TrackNext(render: Renderer, reg: Catalog, t: State, evs: seq<Event>, ev: Event)
    requires WellFormed(reg) && Valid(t) && Canonical(render, reg, t, evs)
    ensures var r := Update(render, reg, t, ev);
      && (r.Success? <==> Trackable(ev))
      && (r.Success? ==> Valid(r.value) && Canonical(render, reg, r.value, evs + [ev]))
  {
    UpdateAcceptsExactly(render, reg, t, ev);
    if StatusKnown(ev.observation) {
      UpdateCanonical(render, reg, t, evs, ev);
    }
    hide Canonical, Valid, Trackable, Updated, Listed;
  }

  lemma StripAgain(s: string)
    requires !Blank(s)
    ensures !Blank(Strip(s))
  {
    StripMeaning(s);
    var i := 0;
    assert !IsSpace(Strip(s)[i]);
  }

  /** Two runs with the same events, in whatever order and multiplicity, end with the
      same seven lists. */
  lemma OrderIndependence(render: Renderer, reg: Catalog, query: string, evs: seq<Event>, other: seq<Event>)
    requires WellFormed(reg) && !Blank(query)
    requires forall ev :: ev in evs <==> ev in other
    ensures Empty(query).Some?
    ensures Track(render, reg, Empty(query).value, evs).Success? <==>
            Track(render, reg, Empty(query).value, other).Success?
    ensures Track(render, reg, Empty(query).value, evs).Success? ==>
      forall kind :: Listed(Track(render, reg, Empty(query).value, evs).value, kind)
                  == Listed(Track(render, reg, Empty(query).value, other).value, kind)
  {
    TrackIsCanonical(render, reg, query, evs);
    TrackIsCanonical(render, reg, query, other);
    forall kind: Kind ensures RunAdds(render, reg, kind, evs) == RunAdds(render, reg, kind, other) {
    }
  }

  /** Every accepted update only adds: no list loses an entry, and the route list is
      extended at its end or left alone. */
  lemma UpdateOnlyGrows(render: Renderer, reg: Catalog, t: State, ev: Event)
    requires Update(render, reg, t, ev).Success?
    ensures var u := Update(render, reg, t, ev).value;
      && u.originalQuery == t.originalQuery
      && t.routes <= u.routes && |u.routes| <= |t.routes| + 1
      && forall kind :: Elements(Listed(t, kind)) <= Elements(Listed(u, kind))
  {
    forall kind: Kind
      ensures Elements(Listed(t, kind)) <= Elements(Listed(Updated(render, reg, t, ev), kind))
    {
      ListedUpdated(render, reg, t, kind, ev);
      ElementsOfSorted(Elements(Listed(t, kind)) + EventAdds(render, reg, kind, ev));
    }
  }
}
