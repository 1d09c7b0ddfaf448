/** What each list of the tracker state holds after a run, said of the observations
    themselves, and what never gets into it. */
module ObservedLists {
  import opened Wrappers
  import opened Text
  import opened JsonValues
  import opened Registry
  import opened Tracker
  import opened BaseCatalog

  // ---- Metadata -----------------------------------------------------------------------------------

  /** Field `i` is `f`, and the last one declared under its name. */
  ghost predicate LastNamed(fields: seq<FieldSpec>, name: string, f: FieldSpec, i: int) {
    && 0 <= i < |fields| && fields[i] == f && f.name == name
    && forall j | i < j < |fields| :: fields[j].name != name
  }

  /** The endpoint's metadata for a field name: the last output field declared under it. */
  ghost predicate Declares(ep: Endpoint, name: string, f: FieldSpec) {
    exists i :: LastNamed(ep.outputFields, name, f, i)
  }

  lemma {:induction false} FieldForExactly(fields: seq<FieldSpec>, name: string, f: FieldSpec)
    ensures FieldFor(fields, name) == Some(f) <==> exists i :: LastNamed(fields, name, f, i)
  {
    if fields != [] {
      var init, last := fields[..|fields| - 1], fields[|fields| - 1];
      FieldForExactly(init, name, f);
      if last.name == name {
        assert LastNamed(fields, name, last, |fields| - 1);
      } else {
        forall i
          ensures LastNamed(fields, name, f, i) <==> LastNamed(init, name, f, i)
        {
          assert forall j | 0 <= j < |init| :: init[j] == fields[j];
        }
        hide LastNamed;
      }
    }
  }

  lemma MetadataExactly(ep: Endpoint, name: string, f: FieldSpec)
    ensures Metadata(Some(ep), name) == Some(f) <==> Declares(ep, name, f)
  {
    FieldForExactly(ep.outputFields, name, f);
  }

  // ---- Identifiers ----------------------------------------------------------------------------------

  /** The name ends in `_id`. */
  predicate NamedId(name: string) {
    |name| >= 3 && name[|name| - 3] == '_' && name[|name| - 2] == 'i' && name[|name| - 1] == 'd'
  }

  /** The metadata calls the field an identifier. */
  ghost predicate MarkedId(f: FieldSpec) {
    f.identifier || (f.semanticId.Some? &&
      exists head: string :: f.semanticId.value == head + ".id" || f.semanticId.value == head + ".identifier")
  }

  /** The field is one whose value identifies something. */
  ghost predicate Identifies(ep: Endpoint, name: string) {
    NamedId(name) || exists f :: Declares(ep, name, f) && MarkedId(f)
  }

  lemma EndsWithExactly(s: string, suffix: string)
    ensures EndsWith(s, suffix) <==> exists head: string :: s == head + suffix
  {
    if EndsWith(s, suffix) {
      assert s == s[..|s| - |suffix|] + suffix;
    }
  }

  lemma MarkedExactly(f: FieldSpec)
    ensures MarkedId(f) <==>
      || f.identifier
      || (f.semanticId.Some? && (EndsWith(f.semanticId.value, ".id") || EndsWith(f.semanticId.value, ".identifier")))
  {
    if f.semanticId.Some? {
      EndsWithExactly(f.semanticId.value, ".id");
      EndsWithExactly(f.semanticId.value, ".identifier");
    }
  }

  lemma NamedExactly(name: string)
    ensures NamedId(name) <==> EndsWith(name, "_id")
  {
  }

  lemma IdentifiesExactly(ep: Endpoint, name: string)
    ensures IsIdentifier(Metadata(Some(ep), name), name) <==> Identifies(ep, name)
  {
    NamedExactly(name);
    var field := Metadata(Some(ep), name);
    if field.Some? {
      MarkedExactly(field.value);
      MetadataExactly(ep, name, field.value);
    }
    forall f | Declares(ep, name, f)
      ensures field == Some(f)
    {
      MetadataExactly(ep, name, f);
    }
    hide Metadata, Declares, MarkedId, EndsWith, NamedId;
  }

  // ---- The lists of a run --------------------------------------------------------------------------

  /** A string, number or boolean. */
  predicate Scalar(v: Json) {
    v.Str? || v.Int? || v.Num? || v.Bool?
  }

  ghost predicate Tracks(render: Renderer, reg: Catalog, query: string, evs: seq<Event>, t: State) {
    && WellFormed(reg) && !Blank(query) && Empty(query).Some?
    && Track(render, reg, Empty(query).value, evs) == Success(t)
  }

  /** This event contributes `x` to a list. */
  ghost predicate Contributes(render: Renderer, reg: Catalog, kind: Kind, ev: Event, x: string) {
    exists name | name in ev.observation :: x in Atoms(render, Resolve(reg, ev.route), kind, name, ev.observation[name])
  }

  lemma ListedExactly(render: Renderer, reg: Catalog, query: string, evs: seq<Event>, t: State, kind: Kind, x: string)
    requires Tracks(render, reg, query, evs, t)
    ensures StrictlySorted(Listed(t, kind))
    ensures x in Listed(t, kind) <==> exists ev | ev in evs :: Contributes(render, reg, kind, ev, x)
  {
    TrackIsCanonical(render, reg, query, evs);
    hide Atoms, Track, Resolve;
    assert x in Listed(t, kind) <==> x in RunAdds(render, reg, kind, evs);
    forall ev: Event
      ensures x in EventAdds(render, reg, kind, ev) <==> Contributes(render, reg, kind, ev, x)
    {
    }
    hide EventAdds, Contributes;
  }

  /** The event shows, in an identifying field of a registered endpoint, a scalar value that
      renders as `x`. */
  ghost predicate ShowsIdentifier(render: Renderer, reg: Catalog, ev: Event, x: string) {
    && x != "" && Resolve(reg, ev.route).Some?
    && exists name | name in ev.observation && Identifies(Resolve(reg, ev.route).value, name) ::
         Scalar(ev.observation[name]) && x == Strip(render(ev.observation[name]))
  }

  lemma IdentifierAtom(render: Renderer, ep: Endpoint, name: string, v: Json, x: string)
    ensures x in Atoms(render, Some(ep), Identifier, name, v) <==>
      Identifies(ep, name) && Scalar(v) && x == Strip(render(v)) && x != ""
  {
    IdentifiesExactly(ep, name);
    hide Metadata, IsIdentifier, Identifies, Strip;
  }

  lemma ContributesIdentifier(render: Renderer, reg: Catalog, ev: Event, x: string)
    ensures Contributes(render, reg, Identifier, ev, x) <==> ShowsIdentifier(render, reg, ev, x)
  {
    if Resolve(reg, ev.route).Some? {
      var ep := Resolve(reg, ev.route).value;
      forall name | name in ev.observation
        ensures x in Atoms(render, Some(ep), Identifier, name, ev.observation[name]) <==>
          Identifies(ep, name) && Scalar(ev.observation[name]) && x == Strip(render(ev.observation[name])) && x != ""
      {
        IdentifierAtom(render, ep, name, ev.observation[name], x);
      }
      hide Atoms, Identifies, Strip, Resolve, Scalar;
    }
  }

  /** The stable identifiers of a run: exactly the visible renderings of the scalar values
      of identifying fields of registered endpoints. */
  lemma IdentifiersExactly(render: Renderer, reg: Catalog, query: string, evs: seq<Event>, t: State, x: string)
    requires Tracks(render, reg, query, evs, t)
    ensures x in t.identifiers <==> exists ev | ev in evs :: ShowsIdentifier(render, reg, ev, x)
  {
    IdentifierList(t);
    hide *;
    ListedExactly(render, reg, query, evs, t, Identifier, x);
    SameIdentifiers(render, reg, x);
  }

  lemma IdentifierList(t: State)
    ensures Listed(t, Identifier) == t.identifiers
  {
  }

  lemma SameIdentifiers(render: Renderer, reg: Catalog, x: string)
    ensures forall ev :: Contributes(render, reg, Identifier, ev, x) <==> ShowsIdentifier(render, reg, ev, x)
  {
    forall ev
      ensures Contributes(render, reg, Identifier, ev, x) <==> ShowsIdentifier(render, reg, ev, x)
    {
      hide *;
      ContributesIdentifier(render, reg, ev, x);
    }
  }

  /** The rest of the state: the stripped query, the registered routes called, and what the
      last event said. */
  lemma RestExactly(render: Renderer, reg: Catalog, query: string, evs: seq<Event>, t: State, route: string)
    requires Tracks(render, reg, query, evs, t)
    ensures t.originalQuery == Strip(query)
    ensures route in t.routes <==> Resolve(reg, route).Some? && exists ev | ev in evs :: ev.route == route
    ensures evs == [] ==> t.lastStatus == "not_run" && t.lastError == None && t.incomplete
    ensures evs != [] ==> var last := evs[|evs| - 1];
      && "status" in last.observation && last.observation["status"] == Str(t.lastStatus)
      && t.incomplete == last.incomplete
  {
    TrackIsCanonical(render, reg, query, evs);
    QueryKept(render, reg, Empty(query).value, evs);
    RegisteredMembers(reg, evs, route);
    hide Track, Listed, SortedSet, RunAdds, Valid, Resolve, RegisteredRoutes, Dedup, Strip;
  }

  lemma {:induction false} QueryKept(render: Renderer, reg: Catalog, t: State, evs: seq<Event>)
    requires Track(render, reg, t, evs).Success?
    ensures Track(render, reg, t, evs).value.originalQuery == t.originalQuery
  {
    if evs != [] {
      var init := evs[..|evs| - 1];
      QueryKept(render, reg, t, init);
      hide Updated;
      UpdateOnlyGrows(render, reg, Track(render, reg, t, init).value, evs[|evs| - 1]);
    }
  }

  lemma {:induction false} RegisteredMembers(reg: Catalog, evs: seq<Event>, route: string)
    ensures route in RegisteredRoutes(reg, evs) <==>
      Resolve(reg, route).Some? && exists ev | ev in evs :: ev.route == route
  {
    if evs != [] {
      RegisteredMembers(reg, evs[..|evs| - 1], route);
      assert evs == evs[..|evs| - 1] + [evs[|evs| - 1]];
      hide Resolve;
    }
  }

  // ---- The other lists ------------------------------------------------------------------------------

  /** The label of a value's JSON type. */
  predicate Labels(v: Json, x: string) {
    || (v.Null? && x == "null") || (v.Bool? && x == "boolean") || (v.Int? && x == "integer")
    || (v.Num? && x == "number") || (v.Str? && x == "string") || (v.Arr? && x == "array") || (v.Obj? && x == "object")
  }

  ghost predicate ShowsType(ev: Event, x: string) {
    exists name | name in ev.observation :: Labels(ev.observation[name], x)
  }

  lemma LabelsExactly(v: Json, x: string)
    ensures Labels(v, x) <==> x == TypeLabel(v)
  {
  }

  lemma ContributesNameAndType(render: Renderer, reg: Catalog, ev: Event, x: string)
    ensures Contributes(render, reg, FieldName, ev, x) <==> x in ev.observation
    ensures Contributes(render, reg, ValueType, ev, x) <==> ShowsType(ev, x)
  {
    forall name | name in ev.observation
      ensures Labels(ev.observation[name], x) <==> x == TypeLabel(ev.observation[name])
    {
      LabelsExactly(ev.observation[name], x);
    }
    hide Labels, TypeLabel, Resolve, Metadata;
  }

  /** Field names and types of everything observed. */
  lemma NamesAndTypesExactly(render: Renderer, reg: Catalog, query: string, evs: seq<Event>, t: State, x: string)
    requires Tracks(render, reg, query, evs, t)
    ensures x in t.fieldNames <==> exists ev | ev in evs :: x in ev.observation
    ensures x in t.valueTypes <==> exists ev | ev in evs :: ShowsType(ev, x)
  {
    NameAndTypeLists(t);
    hide *;
    ListedExactly(render, reg, query, evs, t, FieldName, x);
    ListedExactly(render, reg, query, evs, t, ValueType, x);
    SameNamesAndTypes(render, reg, x);
  }

  lemma NameAndTypeLists(t: State)
    ensures Listed(t, FieldName) == t.fieldNames && Listed(t, ValueType) == t.valueTypes
  {
  }

  lemma SameNamesAndTypes(render: Renderer, reg: Catalog, x: string)
    ensures forall ev: Event :: Contributes(render, reg, FieldName, ev, x) <==> x in ev.observation
    ensures forall ev: Event :: Contributes(render, reg, ValueType, ev, x) <==> ShowsType(ev, x)
  {
    forall ev: Event
      ensures Contributes(render, reg, FieldName, ev, x) <==> x in ev.observation
      ensures Contributes(render, reg, ValueType, ev, x) <==> ShowsType(ev, x)
    {
      hide *;
      ContributesNameAndType(render, reg, ev, x);
    }
  }

  /** What declared metadata says under one heading. */
  ghost predicate FieldCarries(kind: Kind, f: FieldSpec, x: string) {
    match kind
    case SemanticId => f.semanticId == Some(x) && x != ""
    case Unit => f.unit == Some(x) && x != ""
    case Dimension => f.dimension == Some(x)
    case Qualifier => exists q | q in f.qualifiers :: x == q + "=" + f.qualifiers[q]
    case _ => false
  }

  /** The event shows a field whose declared metadata, at a registered endpoint, says `x`. */
  ghost predicate ShowsMetadata(reg: Catalog, kind: Kind, ev: Event, x: string) {
    && Resolve(reg, ev.route).Some?
    && exists f: FieldSpec | f.name in ev.observation && Declares(Resolve(reg, ev.route).value, f.name, f) ::
         FieldCarries(kind, f, x)
  }

  lemma MetadataAtom(render: Renderer, ep: Endpoint, kind: Kind, name: string, v: Json, x: string)
    requires kind in {SemanticId, Unit, Dimension, Qualifier}
    ensures x in Atoms(render, Some(ep), kind, name, v) <==>
      Metadata(Some(ep), name).Some? && FieldCarries(kind, Metadata(Some(ep), name).value, x)
  {
    hide Metadata;
  }

  lemma ContributesMetadata(render: Renderer, reg: Catalog, kind: Kind, ev: Event, x: string)
    requires kind in {SemanticId, Unit, Dimension, Qualifier}
    ensures Contributes(render, reg, kind, ev, x) <==> ShowsMetadata(reg, kind, ev, x)
  {
    if Resolve(reg, ev.route).Some? {
      var ep := Resolve(reg, ev.route).value;
      hide Atoms, Resolve, Metadata, Declares, FieldCarries;
      if Contributes(render, reg, kind, ev, x) {
        var name :| name in ev.observation && x in Atoms(render, Some(ep), kind, name, ev.observation[name]);
        MetadataAtom(render, ep, kind, name, ev.observation[name], x);
        MetadataExactly(ep, name, Metadata(Some(ep), name).value);
        DeclaredName(ep, name, Metadata(Some(ep), name).value);
      }
      if ShowsMetadata(reg, kind, ev, x) {
        var f: FieldSpec :| f.name in ev.observation && Declares(ep, f.name, f) && FieldCarries(kind, f, x);
        MetadataExactly(ep, f.name, f);
        MetadataAtom(render, ep, kind, f.name, ev.observation[f.name], x);
      }
    } else {
      hide Metadata, Resolve;
      assert forall name :: Metadata(None, name) == None by { NoMetadata(); }
    }
  }

  lemma NoMetadata()
    ensures forall name :: Metadata(None, name) == None
  {
  }

  lemma DeclaredName(ep: Endpoint, name: string, f: FieldSpec)
    requires Declares(ep, name, f)
    ensures f.name == name
  {
  }

  /** Semantic ids, units, dimensions and qualifiers: exactly those declared for an observed
      field of a registered endpoint. */
  lemma MetadataListsExactly(
      render: Renderer, reg: Catalog, query: string, evs: seq<Event>, t: State, kind: Kind, x: string)
    requires Tracks(render, reg, query, evs, t) && kind in {SemanticId, Unit, Dimension, Qualifier}
    ensures x in Listed(t, kind) <==> exists ev | ev in evs :: ShowsMetadata(reg, kind, ev, x)
  {
    hide *;
    ListedExactly(render, reg, query, evs, t, kind, x);
    forall ev
      ensures Contributes(render, reg, kind, ev, x) <==> ShowsMetadata(reg, kind, ev, x)
    {
      ContributesMetadata(render, reg, kind, ev, x);
    }
  }

  // ---- Free text -------------------------------------------------------------------------------------

  /** The two observations differ at most in the values of fields that identify nothing, and
      not in the types of those. */
  ghost predicate SameButFreeText(reg: Catalog, route: string, one: Object, other: Object) {
    && one.Keys == other.Keys
    && (forall k, x | k in one :: Labels(one[k], x) <==> Labels(other[k], x))
    && ("status" in one ==> one["status"] == other["status"])
    && (forall k | k in one && Resolve(reg, route).Some? && Identifies(Resolve(reg, route).value, k) ::
          one[k] == other[k])
  }

  lemma SameAtoms(render: Renderer, ep: Option<Endpoint>, kind: Kind, k: string, v: Json, w: Json)
    requires TypeLabel(v) == TypeLabel(w) && (ep.Some? && Identifies(ep.value, k) ==> v == w)
    ensures Atoms(render, ep, kind, k, v) == Atoms(render, ep, kind, k, w)
  {
    hide Metadata, IsIdentifier, Identifies, TypeLabel;
    if ep.Some? {
      IdentifiesExactly(ep.value, k);
    }
  }

  lemma FreeTextAddsNothing(render: Renderer, reg: Catalog, kind: Kind, ev: Event, other: Object)
    requires SameButFreeText(reg, ev.route, ev.observation, other)
    ensures EventAdds(render, reg, kind, ev.(observation := other)) == EventAdds(render, reg, kind, ev)
  {
    var ep := Resolve(reg, ev.route);
    hide Identifies, Resolve, Atoms, Labels;
    forall k | k in other
      ensures Atoms(render, ep, kind, k, other[k]) == Atoms(render, ep, kind, k, ev.observation[k])
    {
      LabelsExactly(ev.observation[k], TypeLabel(other[k]));
      LabelsExactly(other[k], TypeLabel(other[k]));
      SameAtoms(render, ep, kind, k, other[k], ev.observation[k]);
    }
    assert EventAdds(render, reg, kind, ev.(observation := other))
        == set k, a | k in other.Keys && a in Atoms(render, ep, kind, k, other[k]) :: a;
  }

  lemma SameStatus(reg: Catalog, ev: Event, other: Object)
    requires SameButFreeText(reg, ev.route, ev.observation, other)
    ensures StatusKnown(ev.observation) <==> StatusKnown(other)
    ensures StatusKnown(other) ==> other["status"] == ev.observation["status"]
  {
    hide Identifies, Resolve, Labels;
  }

  /** Free text never reaches the retriever: what is not the value of an identifying field,
      and not the status, changes nothing. */
  lemma FreeTextIsInvisible(render: Renderer, reg: Catalog, t: State, ev: Event, other: Object)
    requires SameButFreeText(reg, ev.route, ev.observation, other)
    ensures Update(render, reg, t, ev.(observation := other)) == Update(render, reg, t, ev)
  {
    hide Valid, SortedSet, Elements, SameButFreeText, EventAdds, Resolve, StatusKnown;
    forall kind: Kind
      ensures EventAdds(render, reg, kind, ev.(observation := other)) == EventAdds(render, reg, kind, ev)
    {
      FreeTextAddsNothing(render, reg, kind, ev, other);
    }
    SameStatus(reg, ev, other);
  }

  /** For instance the text of a retrieved paper: any two texts leave the same state. */
  lemma PaperTextIsInvisible(render: Renderer, reg: Catalog, t: State, ev: Event, one: string, other: string)
    requires Provides(reg) && ev.route == "papers.retrieve"
    ensures Update(render, reg, t, ev.(observation := ev.observation["paper_text" := Str(one)]))
         == Update(render, reg, t, ev.(observation := ev.observation["paper_text" := Str(other)]))
  {
    var base, obs := ev.observation["paper_text" := Str(one)], ev.observation["paper_text" := Str(other)];
    PaperRoute(reg);
    PaperTextIdentifiesNothing();
    hide *;
    SameButOneText(reg, ev.route, Spec(PapersRetrieve), ev.observation, one, other);
    FreeTextIsInvisible(render, reg, t, ev.(observation := base), obs);
  }

  lemma PaperRoute(reg: Catalog)
    requires Provides(reg)
    ensures Resolve(reg, "papers.retrieve") == Some(Spec(PapersRetrieve))
  {
    PaperRouteName();
    hide Resolve, Spec, Route, RouteIds;
    assert Resolve(reg, Route(PapersRetrieve)) == Some(Spec(PapersRetrieve));
  }

  lemma PaperRouteName()
    ensures Route(PapersRetrieve) == "papers.retrieve"
  {
  }

  lemma SameButOneText(reg: Catalog, route: string, ep: Endpoint, base: Object, one: string, other: string)
    requires Resolve(reg, route) == Some(ep) && !Identifies(ep, "paper_text")
    ensures SameButFreeText(reg, route, base["paper_text" := Str(one)], base["paper_text" := Str(other)])
  {
    hide Identifies, Resolve;
    assert "paper_text" != "status";
  }

  lemma PaperTextIdentifiesNothing()
    ensures !Identifies(Spec(PapersRetrieve), "paper_text")
  {
    forall f | Declares(Spec(PapersRetrieve), "paper_text", f)
      ensures !MarkedId(f)
    {
      assert f == Field("paper_text", "paper.text");
      MarkedExactly(f);
    }
    hide MarkedId;
  }
}
