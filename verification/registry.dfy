/** Registered tools, route identifiers, schema validation and the names tools are
    offered under. */
module Registry {
  import opened Wrappers
  import opened Text
  import opened JsonValues

  datatype FieldSpec = FieldSpec(
    name: string,
    semanticId: Option<string>,
    unit: Option<string>,
    dimension: Option<string>,
    qualifiers: map<string, string>,
    identifier: bool)

  /** The `type` entry of a parameter's JSON schema. */
  datatype SchemaType = Untyped | One(name: string) | AnyOf(names: seq<string>)

  datatype Parameter = Parameter(name: string, required: bool, schemaType: SchemaType)

  datatype Endpoint = Endpoint(
    name: string,
    parameters: seq<Parameter>,
    outputFields: seq<FieldSpec>,
    destructive: bool)

  datatype Tool = Tool(key: string, endpoints: seq<Endpoint>)

  /** Tools in registration order. */
  type Catalog = seq<Tool>

  /** What tool validation and the registry's key dictionary guarantee. */
  ghost predicate WellFormed(reg: Catalog) {
    && (forall i, j | 0 <= i < j < |reg| :: reg[i].key != reg[j].key)
    && (forall i | 0 <= i < |reg| :: DistinctEndpoints(reg[i]))
    && (forall i, j | 0 <= i < |reg| && 0 <= j < |reg[i].endpoints| :: FieldsOk(reg[i].endpoints[j]))
  }

  ghost predicate DistinctEndpoints(tool: Tool) {
    forall i, j | 0 <= i < j < |tool.endpoints| :: tool.endpoints[i].name != tool.endpoints[j].name
  }

  /** A declared dimension is never blank. */
  ghost predicate FieldsOk(ep: Endpoint) {
    forall i | 0 <= i < |ep.outputFields| :: ep.outputFields[i].dimension != Some("")
  }

  // ---- Route identifiers --------------------------------------------------------

  function RouteOf(tool: Tool, ep: Endpoint): string {
    tool.key + "." + ep.name
  }

  function ToolRoutes(tool: Tool): seq<string> {
    seq(|tool.endpoints|, i requires 0 <= i < |tool.endpoints| => RouteOf(tool, tool.endpoints[i]))
  }

  /** Every registered route identifier, in registration order. */
  function RouteIds(reg: Catalog): seq<string> {
    if reg == [] then [] else ToolRoutes(reg[0]) + RouteIds(reg[1..])
  }

  predicate IsEndpoint(reg: Catalog, i: int, j: int) {
    0 <= i < |reg| && 0 <= j < |reg[i].endpoints|
  }

  lemma {:induction false} RouteIdsMembers(reg: Catalog, route: string)
    ensures route in RouteIds(reg) <==>
      exists i, j :: IsEndpoint(reg, i, j) && RouteOf(reg[i], reg[i].endpoints[j]) == route
  {
    if reg != [] {
      RouteIdsMembers(reg[1..], route);
      if route in ToolRoutes(reg[0]) {
        var j :| 0 <= j < |ToolRoutes(reg[0])| && ToolRoutes(reg[0])[j] == route;
        assert IsEndpoint(reg, 0, j) && RouteOf(reg[0], reg[0].endpoints[j]) == route;
      }
      if route in RouteIds(reg[1..]) {
        var i, j :| IsEndpoint(reg[1..], i, j) && RouteOf(reg[1..][i], reg[1..][i].endpoints[j]) == route;
        assert IsEndpoint(reg, i + 1, j);
      }
      forall i, j | IsEndpoint(reg, i, j) && RouteOf(reg[i], reg[i].endpoints[j]) == route
        ensures route in RouteIds(reg)
      {
        if i == 0 {
          assert ToolRoutes(reg[0])[j] == route;
        } else {
          assert IsEndpoint(reg[1..], i - 1, j);
        }
      }
    }
  }

  /** Routes of endpoints declared destructive. */
  predicate IsDestructiveRoute(reg: Catalog, route: string) {
    exists i, j | 0 <= i < |reg| && 0 <= j < |reg[i].endpoints| ::
      reg[i].endpoints[j].destructive && RouteOf(reg[i], reg[i].endpoints[j]) == route
  }

  // ---- Resolution -----------------------------------------------------------------

  function FindTool(reg: Catalog, key: string): Option<Tool> {
    if reg == [] then None
    else if reg[0].key == key then Some(reg[0])
    else FindTool(reg[1..], key)
  }

  function FindEndpoint(eps: seq<Endpoint>, name: string): Option<Endpoint> {
    if eps == [] then None
    else if eps[0].name == name then Some(eps[0])
    else FindEndpoint(eps[1..], name)
  }

  /** Split at the first dot, then look the two halves up. */
  function Resolve(reg: Catalog, route: string): Option<Endpoint> {
    var dot := IndexOf(route, '.');
    if dot == |route| then None
    else match FindTool(reg, route[..dot])
      case None => None
      case Some(tool) => FindEndpoint(tool.endpoints, route[dot + 1..])
  }

  lemma {:induction false} FindToolAt(reg: Catalog, i: nat)
    requires WellFormed(reg) && i < |reg|
    ensures FindTool(reg, reg[i].key) == Some(reg[i])
  {
    if i > 0 {
      assert reg[0].key != reg[i].key;
      assert WellFormed(reg[1..]);
      FindToolAt(reg[1..], i - 1);
    }
  }

  lemma {:induction false} FindEndpointAt(tool: Tool, j: nat)
    requires DistinctEndpoints(tool) && j < |tool.endpoints|
    ensures FindEndpoint(tool.endpoints, tool.endpoints[j].name) == Some(tool.endpoints[j])
    decreases j
  {
    if j > 0 {
      assert tool.endpoints[0].name != tool.endpoints[j].name;
      FindEndpointAt(tool.(endpoints := tool.endpoints[1..]), j - 1);
    }
  }

  lemma {:induction false} FirstDot(key: string, name: string)
    requires '.' !in key
    ensures IndexOf(key + "." + name, '.') == |key|
  {
    var r := key + "." + name;
    var i := IndexOf(r, '.');
    assert r[|key|] == '.';
    assert forall j | 0 <= j < |key| :: r[j] == key[j] && key[j] in key;
  }

  /** A tool whose key holds no dot is reached by the very route it is listed under. */
  lemma DotFreeResolves(reg: Catalog, i: nat, j: nat)
    requires WellFormed(reg) && IsEndpoint(reg, i, j)
    requires '.' !in reg[i].key
    ensures Resolve(reg, RouteOf(reg[i], reg[i].endpoints[j])) == Some(reg[i].endpoints[j])
  {
    var key, name := reg[i].key, reg[i].endpoints[j].name;
    FirstDot(key, name);
    var route := key + "." + name;
    assert route[..|key|] == key && route[|key| + 1..] == name;
    FindToolAt(reg, i);
    FindEndpointAt(reg[i], j);
  }

  lemma {:induction false} FindToolMember(reg: Catalog, key: string)
    requires FindTool(reg, key).Some?
    ensures exists i :: 0 <= i < |reg| && reg[i] == FindTool(reg, key).value
  {
    if reg[0].key == key {
      assert reg[0] == FindTool(reg, key).value;
    } else {
      FindToolMember(reg[1..], key);
      var i :| 0 <= i < |reg[1..]| && reg[1..][i] == FindTool(reg[1..], key).value;
      assert reg[i + 1] == FindTool(reg, key).value;
    }
  }

  lemma {:induction false} FindEndpointMember(eps: seq<Endpoint>, name: string)
    requires FindEndpoint(eps, name).Some?
    ensures exists j :: 0 <= j < |eps| && eps[j] == FindEndpoint(eps, name).value
  {
    if eps[0].name == name {
      assert eps[0] == FindEndpoint(eps, name).value;
    } else {
      FindEndpointMember(eps[1..], name);
      var j :| 0 <= j < |eps[1..]| && eps[1..][j] == FindEndpoint(eps[1..], name).value;
      assert eps[j + 1] == FindEndpoint(eps, name).value;
    }
  }

  /** Whatever resolves is a registered endpoint, so its metadata is well formed. */
  lemma ResolvedFieldsOk(reg: Catalog, route: string)
    requires WellFormed(reg) && Resolve(reg, route).Some?
    ensures FieldsOk(Resolve(reg, route).value)
  {
    var dot := IndexOf(route, '.');
    FindToolMember(reg, route[..dot]);
    var tool := FindTool(reg, route[..dot]).value;
    FindEndpointMember(tool.endpoints, route[dot + 1..]);
  }

  /** A listed destructive route is dependable when it resolves, to a destructive endpoint. */
  predicate Dependable(reg: Catalog, route: string) {
    IsDestructiveRoute(reg, route) ==> Resolve(reg, route).Some? && Resolve(reg, route).value.destructive
  }

  /** Dot-free keys make every listing dependable. A namespaced tool, keyed "ns.tool",
      is not covered: its routes split at the wrong dot. */
  lemma DotFreeKeysSuffice(reg: Catalog, route: string)
    requires WellFormed(reg)
    requires forall i | 0 <= i < |reg| :: '.' !in reg[i].key
    ensures Dependable(reg, route)
  {
    if IsDestructiveRoute(reg, route) {
      var i, j :| 0 <= i < |reg| && 0 <= j < |reg[i].endpoints|
        && reg[i].endpoints[j].destructive && RouteOf(reg[i], reg[i].endpoints[j]) == route;
      DotFreeResolves(reg, i, j);
    }
  }

  // ---- Argument schemas ---------------------------------------------------------------

  predicate TypeValid(v: Json, declared: string) {
    if declared == "string" then v.Str? && !Blank(v.s)
    else if declared == "number" then IsNumber(v)
    else if declared == "integer" then v.Int?
    else if declared == "boolean" then v.Bool?
    else if declared == "array" then v.Arr?
    else if declared == "object" then v.Obj?
    else true
  }

  predicate ValueFits(v: Json, t: SchemaType) {
    match t
    case Untyped => true
    case One(name) => TypeValid(v, name)
    case AnyOf(names) => exists i | 0 <= i < |names| :: TypeValid(v, names[i])
  }

  function FirstFault(params: seq<Parameter>, args: Object): Option<string> {
    if params == [] then None
    else
      var p := params[0];
      if p.required && p.name !in args then Some("missing_required_argument:" + p.name)
      else if p.name !in args then FirstFault(params[1..], args)
      else if !ValueFits(args[p.name], p.schemaType) then Some("invalid_type:" + p.name)
      else FirstFault(params[1..], args)
  }

  /** `None` when the arguments are valid, otherwise the error text. */
  function SchemaFault(ep: Endpoint, args: Object): Option<string> {
    var declared := set i | 0 <= i < |ep.parameters| :: ep.parameters[i].name;
    var extra := SortedSet(args.Keys - declared);
    if extra != [] then Some("unexpected_arguments:" + Join(extra, ","))
    else FirstFault(ep.parameters, args)
  }

  ghost predicate ParameterMet(p: Parameter, args: Object) {
    if p.name in args then ValueFits(args[p.name], p.schemaType) else !p.required
  }

  lemma {:induction false} FirstFaultMeaning(params: seq<Parameter>, args: Object)
    ensures FirstFault(params, args).None? <==>
      forall i | 0 <= i < |params| :: ParameterMet(params[i], args)
    ensures FirstFault(params, args).Some? ==>
      exists i | 0 <= i < |params| :: FirstFault(params, args).value
        in {"missing_required_argument:" + params[i].name, "invalid_type:" + params[i].name}
  {
    if params != [] {
      FirstFaultMeaning(params[1..], args);
      assert forall i | 0 <= i < |params| :: params[i] == if i == 0 then params[0] else params[1..][i - 1];
      assert forall i | 0 <= i < |params[1..]| :: params[1..][i] == params[i + 1];
      if ParameterMet(params[0], args) && FirstFault(params[1..], args).Some? {
        var i :| 0 <= i < |params[1..]| && FirstFault(params[1..], args).value
          in {"missing_required_argument:" + params[1..][i].name, "invalid_type:" + params[1..][i].name};
        assert params[i + 1] == params[1..][i];
      }
    }
  }

  /** Arguments are accepted exactly when every argument is declared, every required
      parameter is present, and every present value has an allowed type. */
  lemma SchemaFaultMeaning(ep: Endpoint, args: Object)
    ensures SchemaFault(ep, args).None? <==>
      && (forall k | k in args :: exists i | 0 <= i < |ep.parameters| :: ep.parameters[i].name == k)
      && (forall i | 0 <= i < |ep.parameters| :: ParameterMet(ep.parameters[i], args))
  {
    var declared := set i | 0 <= i < |ep.parameters| :: ep.parameters[i].name;
    FirstFaultMeaning(ep.parameters, args);
    var extra := args.Keys - declared;
    assert forall k :: k in SortedSet(extra) <==> k in extra;
    if SortedSet(extra) == [] {
      forall k | k in args ensures k in declared { assert k !in extra; }
    } else {
      assert SortedSet(extra)[0] in extra;
    }
  }

  // ---- Offered names and called names ---------------------------------------------------

  /** `route.replace(".", "__")`: the function name a tool is offered under. */
  function OfferedName(route: string): string {
    if route == "" then ""
    else if route[0] == '.' then "__" + OfferedName(route[1..])
    else [route[0]] + OfferedName(route[1..])
  }

  predicate DunderAt(s: string, j: nat) {
    j + 1 < |s| && s[j] == '_' && s[j + 1] == '_'
  }

  /** Where `__` first occurs, or `|s|`. */
  function FirstDunder(s: string): (i: nat)
    ensures i <= |s|
    ensures i < |s| ==> DunderAt(s, i)
    ensures forall j | 0 <= j < i :: !DunderAt(s, j)
  {
    if |s| < 2 then |s|
    else if DunderAt(s, 0) then 0
    else
      var rest := FirstDunder(s[1..]);
      assert forall j | 0 < j < 1 + rest :: DunderAt(s, j) == DunderAt(s[1..], j - 1);
      assert rest < |s[1..]| ==> DunderAt(s, 1 + rest);
      1 + rest
  }

  /** The name in a parsed tool call: a call without one is malformed. */
  type ToolName = s: string | s != "" witness "x"

  /** `name.replace("__", ".", 1)`: the route a called name stands for. */
  function CalledRoute(name: string): string {
    var i := FirstDunder(name);
    if i == |name| then name else name[..i] + "." + name[i + 2..]
  }

  ghost predicate NoDunder(s: string) {
    forall j: nat :: !DunderAt(s, j)
  }

  /** Some name a model could write calls this route. */
  ghost predicate Callable(route: string) {
    && route != ""
    && (NoDunder(route) || exists p | 0 <= p < |route| :: route[p] == '.' && NoDunder(route[..p] + "_"))
  }

  lemma FirstDunderIs(s: string, i: nat)
    requires DunderAt(s, i)
    requires forall j | 0 <= j < i :: !DunderAt(s, j)
    ensures FirstDunder(s) == i
  {
    assert FirstDunder(s) < i ==> DunderAt(s, FirstDunder(s));
  }

  /** Before the dot, the called name and the route's head carry the same underscores. */
  lemma SameDunders(name: string, head: string)
    requires |head| < |name| && name[..|head|] == head && name[|head|] == '_'
    ensures forall j: nat | j < |head| :: DunderAt(name, j) == DunderAt(head + "_", j)
  {
    assert name[..|head| + 1] == head + "_";
    forall j: nat | j < |head| ensures DunderAt(name, j) == DunderAt(head + "_", j) {
      assert (head + "_")[j] == name[j] && (head + "_")[j + 1] == name[j + 1];
    }
  }

  /** Splicing two underscores after a clean head gives a name that calls the head,
      a dot, and the tail. */
  lemma SplicedName(head: string, tail: string)
    ensures NoDunder(head + "_") ==> CalledRoute(head + "__" + tail) == head + "." + tail
    ensures !NoDunder(head + "_") ==> FirstDunder(head + "__" + tail) < |head|
  {
    var name := head + "__" + tail;
    var p := |head|;
    SameDunders(name, head);
    assert DunderAt(name, p);
    if NoDunder(head + "_") {
      FirstDunderIs(name, p);
      assert name[..p] == head && name[p + 2..] == tail;
    } else {
      var j: nat :| DunderAt(head + "_", j);
      assert DunderAt(name, j);
    }
  }

  /** A name that calls a callable route. */
  lemma NameFor(route: string) returns (name: ToolName)
    requires Callable(route)
    ensures CalledRoute(name) == route
  {
    if NoDunder(route) {
      CleanName(route);
      name := route;
    } else {
      var p :| 0 <= p < |route| && route[p] == '.' && NoDunder(route[..p] + "_");
      var head, tail := route[..p], route[p + 1..];
      assert route == head + "." + tail;
      SplicedName(head, tail);
      name := head + "__" + tail;
    }
    hide CalledRoute, NoDunder;
  }

  lemma CleanName(route: string)
    requires NoDunder(route)
    ensures CalledRoute(route) == route
  {
  }

  /** Exactly the callable routes can be called: a double underscore in the tool key,
      or an underscore just before its dot, puts a route out of every model's reach. */
  lemma CallableExactly(route: string)
    ensures (exists name: ToolName :: CalledRoute(name) == route) <==> Callable(route)
  {
    if Callable(route) {
      var name := NameFor(route);
    }
    if exists name: ToolName :: CalledRoute(name) == route {
      var name: ToolName :| CalledRoute(name) == route;
      var i := FirstDunder(name);
      if i < |name| {
        SameDunders(name, name[..i]);
        assert route[i] == '.' && route[..i] == name[..i];
      }
    }
  }

  function Dots(s: string): nat {
    if s == "" then 0 else (if s[0] == '.' then 1 else 0) + Dots(s[1..])
  }

  lemma {:induction false} OfferedNameShape(route: string)
    ensures |OfferedName(route)| == |route| + Dots(route)
    ensures '.' !in OfferedName(route)
    ensures Dots(route) == 0 ==> OfferedName(route) == route && '.' !in route
  {
    if route != "" {
      OfferedNameShape(route[1..]);
      assert route == [route[0]] + route[1..];
    }
  }

  lemma {:induction false} OfferedNameAppend(a: string, b: string)
    ensures OfferedName(a + b) == OfferedName(a) + OfferedName(b)
  {
    if a == "" {
      assert a + b == b;
    } else {
      assert (a + b)[1..] == a[1..] + b;
      OfferedNameAppend(a[1..], b);
    }
  }

  lemma OfferedNameAtDot(head: string, tail: string)
    requires '.' !in head && '.' !in tail
    ensures OfferedName(head + "." + tail) == head + "__" + tail
  {
    OfferedNameAppend(head + ".", tail);
    OfferedNameAppend(head, ".");
    DotFreeHasNoDots(head);
    DotFreeHasNoDots(tail);
    OfferedNameShape(head);
    OfferedNameShape(tail);
    assert OfferedName(".") == "__" + OfferedName("");
  }

  lemma {:induction false} DotFreeHasNoDots(s: string)
    ensures Dots(s) == 0 <==> '.' !in s
  {
    if s != "" {
      assert s == [s[0]] + s[1..];
      DotFreeHasNoDots(s[1..]);
    }
  }

  lemma {:induction false} OneDotSplits(s: string) returns (head: string, tail: string)
    requires Dots(s) == 1
    ensures s == head + "." + tail && '.' !in head && '.' !in tail
  {
    if s[0] == '.' {
      head, tail := "", s[1..];
      DotFreeHasNoDots(tail);
    } else {
      var h, t := OneDotSplits(s[1..]);
      head, tail := [s[0]] + h, t;
    }
  }

  /** The name a tool is offered under calls that tool back exactly when the route has
      one dot, no double underscore before it and no underscore right before it; a
      dotless route needs no double underscore at all. Two dots, as a namespaced tool
      has, always break the round trip. */
  lemma OfferedNameRoundTrip(route: string)
    ensures CalledRoute(OfferedName(route)) == route <==>
      || (Dots(route) == 0 && NoDunder(route))
      || (Dots(route) == 1 && NoDunder(route[..IndexOf(route, '.')] + "_"))
  {
    var name := OfferedName(route);
    OfferedNameShape(route);
    if Dots(route) == 0 {
      var f := FirstDunder(name);
      if f < |name| {
        assert CalledRoute(name)[f] == '.' && DunderAt(name, f);
      }
    } else if Dots(route) == 1 {
      var head, tail := OneDotSplits(route);
      OfferedNameAtDot(head, tail);
      FirstDot(head, tail);
      assert route[..|head|] == head;
      SplicedName(head, tail);
      if !NoDunder(head + "_") {
        var f := FirstDunder(name);
        assert CalledRoute(name)[f] == '.' && route[f] == head[f] && head[f] in head;
      }
    }
  }
}
