/**
 SNAP processing graphs (`eocanvas.snap.graph.Graph`): a `graph` element
 with a version and a sequence of nodes, each naming an operator, the nodes
 it reads from, and its parameter elements. `add_node` either appends a new
 node or overwrites the parameters of an existing one.
 */
module SnapGraph {
  import opened Wrappers
  import opened Errors
  import opened Strings
  import opened SnapOperator

  /** A `sourceProduct` element: its tag and its `refid` attribute. */
  datatype SourceRef = SourceRef(name: string, refid: string)

  /**
   A child of `parameters`: an element named after a parameter with optional
   text and nested XML fragments, or an XML tree appended whole (the
   descriptor and configuration parameters).
   */
  datatype ParamItem =
    | Param(name: string, text: Option<string>, fragments: seq<string>)
    | Raw(xml: string)

  datatype Node = Node(id: string, operator: string, sources: seq<SourceRef>, parameters: seq<ParamItem>)

  datatype Graph = Graph(version: string, nodes: seq<Node>)

  /** `Graph()`: an empty graph of version 1.0. */
  const NewGraph: Graph := Graph("1.0", [])

  /** The `source` argument of `add_node`: absent, one node id, a list of them, or a dict. */
  datatype SourceArg = NoSource | Single(refid: string) | Several(refids: seq<string>) | Mapping(entries: map<string, string>)

  /** No two nodes share an id. */
  predicate UniqueIds(g: Graph) {
    forall i, j :: 0 <= i < j < |g.nodes| ==> g.nodes[i].id != g.nodes[j].id
  }

  predicate HasNode(g: Graph, id: string) {
    exists i :: 0 <= i < |g.nodes| && g.nodes[i].id == id
  }

  /** The position of the first node with this id (what `xpath(...)[0]` selects), `|nodes|` when none. */
  function FindNode(nodes: seq<Node>, id: string): (i: nat)
    ensures i <= |nodes|
    ensures forall j :: 0 <= j < i ==> nodes[j].id != id
    ensures i < |nodes| ==> nodes[i].id == id
  {
    if nodes == [] then 0
    else if nodes[0].id == id then 0
    else 1 + FindNode(nodes[1..], id)
  }

  /** The tag of the `index`-th source: `sourceProduct`, then `sourceProduct.1`, `sourceProduct.2`, ... */
  function SourceName(index: nat): string {
    if index == 0 then "sourceProduct" else "sourceProduct." + NatToString(index)
  }

  /** Distinct positions give distinct tags. */
  lemma SourceNamesDistinct(i: nat, j: nat)
    requires i != j
    ensures SourceName(i) != SourceName(j)
  {
    if i != 0 && j != 0 && SourceName(i) == SourceName(j) {
      var p := "sourceProduct.";
      assert SourceName(i)[|p|..] == NatToString(i);
      assert SourceName(j)[|p|..] == NatToString(j);
      NatToStringInjective(i, j);
    }
  }

  /** The `sources` children for a list of node ids. */
  function SourceRefs(refids: seq<string>): (r: seq<SourceRef>)
    ensures |r| == |refids|
    ensures forall i :: 0 <= i < |r| ==> r[i].refid == refids[i]
    ensures forall i :: 0 <= i < |r| ==> r[i].name == SourceName(i)
    ensures forall i, j :: 0 <= i < j < |r| ==> r[i].name != r[j].name
    ensures |r| > 0 ==> r[0].name == "sourceProduct"
  {
    var r := seq(|refids|, i requires 0 <= i < |refids| => SourceRef(SourceName(i), refids[i]));
    forall i, j | 0 <= i < j < |r|
      ensures r[i].name != r[j].name
    {
      SourceNamesDistinct(i, j);
    }
    r
  }

  /** The `sources` element of a new node; a dict source fails on the missing `iteritems`. */
  function NodeSources(source: SourceArg): (r: Result<seq<SourceRef>>)
    ensures r.Err? <==> source.Mapping?
    ensures r.Err? ==> r.error == MissingAttribute("iteritems")
    ensures source.NoSource? ==> r == Ok([])
    ensures source.Single? ==> r == Ok([SourceRef("sourceProduct", source.refid)])
    ensures source.Several? ==> r.Ok? && |r.value| == |source.refids|
    ensures source.Several? ==> forall i :: 0 <= i < |source.refids| ==> r.value[i].refid == source.refids[i]
  {
    match source
    case NoSource => Ok([])
    case Single(refid) => Ok([SourceRef("sourceProduct", refid)])
    case Several(refids) => Ok(SourceRefs(refids))
    case Mapping(_) => Err(MissingAttribute("iteritems"))
  }

  /** Parameters rendered as XML trees rather than as text. */
  const ComplexNames: set<string> := {
    "targetBandDescriptors", "aggregatorConfigs", "variableConfigs",
    "bandConfigurations", "postProcessorConfig", "productCustomizerConfig"
  }

  /** Complex parameters left out altogether when their value is false-y. */
  const SkippedWhenEmpty: set<string> := {
    "bandConfigurations", "variableConfigs", "postProcessorConfig", "productCustomizerConfig"
  }

  predicate EndsWith(s: string, suffix: string) {
    |suffix| <= |s| && s[|s| - |suffix|..] == suffix
  }

  /**
   An attribute `add_node` turns into a parameter: not a dunder name, not
   `_params` or `operator`, and of type `str`, `NoneType` or a descriptor.
   */
  predicate Listed(name: string, v: PValue) {
    && !StartsWith(name, "__")
    && !EndsWith(name, "__")
    && name != "_params"
    && name != "operator"
    && !v.POther?
  }

  /** The names `add_node` visits, in `dir()` order. */
  function Filtered(names: seq<string>, attrs: map<string, PValue>): (r: seq<string>)
    requires forall k :: k in names ==> k in attrs
    ensures forall k :: k in r <==> k in names && Listed(k, attrs[k])
    ensures forall k :: k in r ==> k in names
    ensures |r| <= |names|
    ensures IsSortedLex(names) ==> IsSortedLex(r)
    ensures Distinct(names) ==> Distinct(r)
  {
    if names == [] then []
    else
      var rest := Filtered(names[1..], attrs);
      if Listed(names[0], attrs[names[0]]) then
        SortedCons(names, rest);
        [names[0]] + rest
      else rest
  }

  /** No name occurs twice. */
  predicate Distinct(names: seq<string>) {
    forall i, j :: 0 <= i < j < |names| ==> names[i] != names[j]
  }

  /** The head of a sorted sequence may go in front of any sorted selection from its tail. */
  lemma SortedCons(names: seq<string>, rest: seq<string>)
    requires names != []
    requires forall k :: k in rest ==> k in names[1..]
    ensures IsSortedLex(names) && IsSortedLex(rest) ==> IsSortedLex([names[0]] + rest)
  {
    if IsSortedLex(names) && IsSortedLex(rest) {
      forall j | 0 <= j < |rest|
        ensures LexLe(names[0], rest[j])
      {
        assert rest[j] in names[1..];
        var m :| 0 <= m < |names[1..]| && names[1..][m] == rest[j];
        assert names[m + 1] == rest[j];
      }
    }
  }

  function ListedNames(attrs: map<string, PValue>): (r: seq<string>)
    ensures forall k :: k in r <==> k in attrs && Listed(k, attrs[k])
    ensures IsSortedLex(r)
    ensures Distinct(r)
  {
    Filtered(SortedKeys(attrs.Keys), attrs)
  }

  /** The children a new node gets for one parameter: none, one element, or an error. */
  function NewParamItem(name: string, v: PValue): (r: Result<seq<ParamItem>>)
    ensures r.Ok? ==> |r.value| <= 1
    ensures name in SkippedWhenEmpty && !PTruthy(v) ==> r == Ok([])
    ensures name in ComplexNames && PTruthy(v) ==> (r.Ok? <==> v.PComplex? || v.PStr?)
    ensures name in ComplexNames && r.Ok? && r.value != [] ==> r.value[0].Raw?
    ensures name in ComplexNames && (name !in SkippedWhenEmpty || PTruthy(v)) && v.PComplex? ==> r == Ok([Raw(v.xml)])
    ensures name in ComplexNames && (name !in SkippedWhenEmpty || PTruthy(v)) && v.PStr? ==> r == Ok([Raw(v.s)])
    ensures name in ComplexNames - SkippedWhenEmpty && v.PNone? ==> r == Err(InvalidComplexParameter(name))
    ensures name !in ComplexNames && v.PNone? ==> r == Ok([Param(name, None, [])])
    ensures name !in ComplexNames && v == PStr("") ==> r == Err(EmptyParameterValue(name))
    ensures name !in ComplexNames && v.PStr? && v.s != "" && v.s[0] != '<' ==> r == Ok([Param(name, Some(v.s), [])])
    ensures name !in ComplexNames && v.PStr? && v.s != "" && v.s[0] == '<' ==> r == Ok([Param(name, None, [v.s])])
    ensures name !in ComplexNames && v.PComplex? ==> r == Err(NotSubscriptable(name))
  {
    if name in ComplexNames then
      if name in SkippedWhenEmpty && !PTruthy(v) then Ok([])
      else
        match v
        case PComplex(_, xml) => Ok([Raw(xml)])
        case PStr(s) => Ok([Raw(s)])
        case _ => Err(InvalidComplexParameter(name))
    else
      match v
      case PNone => Ok([Param(name, None, [])])
      case PStr(s) =>
        if s == "" then Err(EmptyParameterValue(name))
        else if s[0] != '<' then Ok([Param(name, Some(s), [])])
        else Ok([Param(name, None, [s])])
      case PComplex(_, _) => Err(NotSubscriptable(name))
      case POther(_) => Err(Unsupported("unlisted attribute " + name))
  }

  /** The `parameters` children of a new node, stopping at the first failing parameter. */
  function NewParamItems(names: seq<string>, attrs: map<string, PValue>): (r: Result<seq<ParamItem>>)
    requires forall k :: k in names ==> k in attrs
    ensures r.Ok? ==> |r.value| <= |names|
    ensures r.Ok? ==> forall i :: 0 <= i < |r.value| && r.value[i].Param? ==> r.value[i].name in names
    ensures r.Ok? && Distinct(names) ==>
              forall i, j :: 0 <= i < j < |r.value| && r.value[i].Param? && r.value[j].Param? ==> r.value[i].name != r.value[j].name
  {
    if names == [] then Ok([])
    else
      var item :- NewParamItem(names[0], attrs[names[0]]);
      var rest :- NewParamItems(names[1..], attrs);
      Ok(item + rest)
  }

  /** Building the parameters fails exactly when one of the parameters fails, and then with the first failure. */
  lemma {:induction false} NewParamItemsFailure(names: seq<string>, attrs: map<string, PValue>)
    requires forall k :: k in names ==> k in attrs
    ensures NewParamItems(names, attrs).Ok? <==> forall i :: 0 <= i < |names| ==> NewParamItem(names[i], attrs[names[i]]).Ok?
    ensures NewParamItems(names, attrs).Err? ==>
              exists i :: 0 <= i < |names| && NewParamItem(names[i], attrs[names[i]]) == Err(NewParamItems(names, attrs).error)
                          && forall j :: 0 <= j < i ==> NewParamItem(names[j], attrs[names[j]]).Ok?
  {
    if names != [] {
      NewParamItemsFailure(names[1..], attrs);
      var r := NewParamItems(names, attrs);
      if NewParamItem(names[0], attrs[names[0]]).Ok? && r.Err? {
        var i :| 0 <= i < |names[1..]| && NewParamItem(names[1..][i], attrs[names[1..][i]]) == Err(r.error)
                 && forall j :: 0 <= j < i ==> NewParamItem(names[1..][j], attrs[names[1..][j]]).Ok?;
        assert NewParamItem(names[i + 1], attrs[names[i + 1]]) == Err(r.error);
      }
    }
  }

  /**
   Every parameter of a successfully built node has an element carrying its
   value: a scalar one as its text or nested fragment, a descriptor or
   configuration as its XML tree (unless it is a false-y one that is skipped).
   */
  lemma {:induction false} NewParamItemsCarryValues(names: seq<string>, attrs: map<string, PValue>, k: nat)
    requires forall n :: n in names ==> n in attrs
    requires NewParamItems(names, attrs).Ok?
    requires k < |names|
    ensures var v := attrs[names[k]];
            && (names[k] !in ComplexNames && v.PNone? ==> Param(names[k], None, []) in NewParamItems(names, attrs).value)
            && (names[k] !in ComplexNames && v.PStr? && v.s != "" && v.s[0] != '<' ==>
                  Param(names[k], Some(v.s), []) in NewParamItems(names, attrs).value)
            && (names[k] !in ComplexNames && v.PStr? && v.s != "" && v.s[0] == '<' ==>
                  Param(names[k], None, [v.s]) in NewParamItems(names, attrs).value)
            && (names[k] in ComplexNames && (names[k] !in SkippedWhenEmpty || PTruthy(v)) && v.PComplex? ==>
                  Raw(v.xml) in NewParamItems(names, attrs).value)
            && (names[k] in ComplexNames && (names[k] !in SkippedWhenEmpty || PTruthy(v)) && v.PStr? ==>
                  Raw(v.s) in NewParamItems(names, attrs).value)
  {
    NewParamItemsFailure(names, attrs);
    if k > 0 {
      NewParamItemsCarryValues(names[1..], attrs, k - 1);
    }
  }

  /** The first `Param` element named `name`, `|items|` when none. */
  function FindParam(items: seq<ParamItem>, name: string): (i: nat)
    ensures i <= |items|
    ensures forall j :: 0 <= j < i ==> !(items[j].Param? && items[j].name == name)
    ensures i < |items| ==> items[i].Param? && items[i].name == name
  {
    if items == [] then 0
    else if items[0].Param? && items[0].name == name then 0
    else 1 + FindParam(items[1..], name)
  }

  /** `b` is `a`, or the same parameter element with possibly different text. */
  predicate SameElement(a: ParamItem, b: ParamItem) {
    a == b || (a.Param? && b.Param? && a.name == b.name && a.fragments == b.fragments)
  }

  /**
   Overwriting one parameter of an existing node. Complex parameters are
   appended to a detached list and leave the node unchanged; a scalar
   parameter only updates an element that already exists.
   */
  function UpdateParam(items: seq<ParamItem>, name: string, v: PValue): (r: Result<seq<ParamItem>>)
    ensures r.Ok? ==> |r.value| == |items|
    ensures r.Ok? ==> forall i :: 0 <= i < |items| ==> SameElement(items[i], r.value[i])
    ensures r.Ok? ==> forall i :: 0 <= i < |items| && !(items[i].Param? && items[i].name == name) ==> r.value[i] == items[i]
    ensures name in ComplexNames ==> (r.Ok? <==> v.PComplex? || v.PStr? || (name in SkippedWhenEmpty && !PTruthy(v)))
    ensures name in ComplexNames && r.Ok? ==> r.value == items
    ensures name in ComplexNames && r.Err? ==> r.error == InvalidComplexParameter(name)
    ensures name !in ComplexNames && FindParam(items, name) < |items| && v.PComplex? ==> r == Err(NotSubscriptable(name))
    ensures name !in ComplexNames && FindParam(items, name) == |items| ==> r == Ok(items)
    ensures name !in ComplexNames && (v.PNone? || v == PStr("")) ==> r == Ok(items)
    ensures name !in ComplexNames && FindParam(items, name) < |items| && v.PStr? && v.s != "" && v.s[0] != '<' ==>
              var i := FindParam(items, name);
              r == Ok(items[i := items[i].(text := Some(v.s))])
    ensures name !in ComplexNames && FindParam(items, name) < |items| && v.PStr? && v.s != "" && v.s[0] == '<' ==>
              r == Err(MissingAttribute("append"))
  {
    if name in ComplexNames then
      if name in SkippedWhenEmpty && !PTruthy(v) then Ok(items)
      else if v.PComplex? || v.PStr? then Ok(items)
      else Err(InvalidComplexParameter(name))
    else
      var i := FindParam(items, name);
      if i == |items| then Ok(items)
      else
        match v
        case PNone => Ok(items)
        case PStr(s) =>
          if s == "" then Ok(items)
          else if s[0] != '<' then Ok(items[i := items[i].(text := Some(s))])
          else Err(MissingAttribute("append"))
        case PComplex(_, _) => Err(NotSubscriptable(name))
        case POther(_) => Err(Unsupported("unlisted attribute " + name))
  }

  function UpdateParams(items: seq<ParamItem>, names: seq<string>, attrs: map<string, PValue>): (r: Result<seq<ParamItem>>)
    requires forall k :: k in names ==> k in attrs
    ensures r.Ok? ==> |r.value| == |items|
    ensures r.Ok? ==> forall i :: 0 <= i < |items| ==> SameElement(items[i], r.value[i])
    decreases |names|
  {
    if names == [] then Ok(items)
    else
      var items' :- UpdateParam(items, names[0], attrs[names[0]]);
      UpdateParams(items', names[1..], attrs)
  }

  /** Elements that differ at most in their text are found at the same position. */
  lemma {:induction false} FindParamSameElements(items: seq<ParamItem>, items': seq<ParamItem>, name: string)
    requires |items| == |items'|
    requires forall i :: 0 <= i < |items| ==> SameElement(items[i], items'[i])
    ensures FindParam(items', name) == FindParam(items, name)
  {
    if items != [] {
      assert SameElement(items[0], items'[0]);
      FindParamSameElements(items[1..], items'[1..], name);
    }
  }

  /** Overwriting leaves alone every element not named by a visited parameter. */
  lemma {:induction false} UpdateParamsKeeps(items: seq<ParamItem>, names: seq<string>, attrs: map<string, PValue>, j: nat)
    requires forall k :: k in names ==> k in attrs
    requires UpdateParams(items, names, attrs).Ok?
    requires j < |items| && !(items[j].Param? && items[j].name in names)
    ensures UpdateParams(items, names, attrs).value[j] == items[j]
    decreases |names|
  {
    if names != [] {
      var items' := UpdateParam(items, names[0], attrs[names[0]]).value;
      assert items'[j] == items[j];
      UpdateParamsKeeps(items', names[1..], attrs, j);
    }
  }

  /**
   Overwriting a node sets the text of the first element named after each
   plain string parameter, and of no other element.
   */
  lemma {:induction false} UpdateParamsSetsText(items: seq<ParamItem>, names: seq<string>, attrs: map<string, PValue>, k: nat)
    requires forall n :: n in names ==> n in attrs
    requires Distinct(names)
    requires UpdateParams(items, names, attrs).Ok?
    requires k < |names| && names[k] !in ComplexNames
    requires FindParam(items, names[k]) < |items|
    requires var v := attrs[names[k]]; v.PStr? && v.s != "" && v.s[0] != '<'
    ensures var j := FindParam(items, names[k]);
            UpdateParams(items, names, attrs).value[j] == items[j].(text := Some(attrs[names[k]].s))
    decreases |names|
  {
    var j := FindParam(items, names[k]);
    var items' := UpdateParam(items, names[0], attrs[names[0]]).value;
    if k == 0 {
      assert items'[j] == items[j].(text := Some(attrs[names[0]].s));
      forall n | n in names[1..]
        ensures n != names[0]
      {
        var m :| 0 <= m < |names[1..]| && names[1..][m] == n;
        assert names[m + 1] == n;
      }
      UpdateParamsKeeps(items', names[1..], attrs, j);
    } else {
      assert names[k] != names[0];
      assert items'[j] == items[j];
      FindParamSameElements(items, items', names[k]);
      assert names[1..][k - 1] == names[k];
      UpdateParamsSetsText(items', names[1..], attrs, k - 1);
    }
  }

  /** `add_node(operator, node_id, source)`. */
  function AddNode(g: Graph, op: Operator, nodeId: string, source: SourceArg): (r: Result<Graph>)
    ensures r.Ok? ==> r.value.version == g.version && HasNode(r.value, nodeId)
    ensures r.Ok? ==> |r.value.nodes| == |g.nodes| + (if HasNode(g, nodeId) then 0 else 1)
    ensures !HasNode(g, nodeId) && source.Mapping? ==> r == Err(MissingAttribute("iteritems"))
    ensures HasNode(g, nodeId) ==> (r.Ok? <==> UpdateParams(g.nodes[FindNode(g.nodes, nodeId)].parameters, ListedNames(op.attrs), op.attrs).Ok?)
  {
    var i := FindNode(g.nodes, nodeId);
    assert HasNode(g, nodeId) <==> i < |g.nodes|;
    var names := ListedNames(op.attrs);
    if i < |g.nodes| then
      var params :- UpdateParams(g.nodes[i].parameters, names, op.attrs);
      var r := g.(nodes := g.nodes[i := g.nodes[i].(operator := op.operator, parameters := params)]);
      assert r.nodes[i].id == nodeId;
      Ok(r)
    else
      var sources :- NodeSources(source);
      var params :- NewParamItems(names, op.attrs);
      var r := g.(nodes := g.nodes + [Node(nodeId, op.operator, sources, params)]);
      assert r.nodes[|g.nodes|].id == nodeId;
      Ok(r)
  }

  /** A new id appends exactly one node and leaves the others as they were. */
  lemma AddNodeAppends(g: Graph, op: Operator, nodeId: string, source: SourceArg)
    requires !HasNode(g, nodeId)
    ensures var r := AddNode(g, op, nodeId, source);
            && (r.Ok? <==> !source.Mapping? && NewParamItems(ListedNames(op.attrs), op.attrs).Ok?)
            && (r.Ok? ==> && r.value.version == g.version
                          && |r.value.nodes| == |g.nodes| + 1
                          && r.value.nodes[..|g.nodes|] == g.nodes
                          && r.value.nodes[|g.nodes|].id == nodeId
                          && r.value.nodes[|g.nodes|].operator == op.operator
                          && r.value.nodes[|g.nodes|].sources == NodeSources(source).value
                          && r.value.nodes[|g.nodes|].parameters == NewParamItems(ListedNames(op.attrs), op.attrs).value)
  {
    assert FindNode(g.nodes, nodeId) == |g.nodes|;
  }

  /**
   An existing id keeps the node count, the node's id and sources, and every
   other node; the node takes the operator's name and the overwritten
   parameters, and the call fails exactly when overwriting does.
   */
  lemma AddNodeOverwrites(g: Graph, op: Operator, nodeId: string, source: SourceArg)
    requires HasNode(g, nodeId)
    ensures var r := AddNode(g, op, nodeId, source);
            var i := FindNode(g.nodes, nodeId);
            var updated := UpdateParams(g.nodes[i].parameters, ListedNames(op.attrs), op.attrs);
            && i < |g.nodes|
            && (r.Ok? <==> updated.Ok?)
            && (r.Ok? ==> && r.value.version == g.version
                          && |r.value.nodes| == |g.nodes|
                          && (forall j :: 0 <= j < |g.nodes| && j != i ==> r.value.nodes[j] == g.nodes[j])
                          && r.value.nodes[i].id == nodeId
                          && r.value.nodes[i].sources == g.nodes[i].sources
                          && r.value.nodes[i].operator == op.operator
                          && r.value.nodes[i].parameters == updated.value
                          && |r.value.nodes[i].parameters| == |g.nodes[i].parameters|)
  {
  }

  /**
   Re-adding a node with a plain string attribute sets the text of that
   parameter's existing element.
   */
  lemma AddNodeOverwriteSetsText(g: Graph, op: Operator, nodeId: string, source: SourceArg, name: string)
    requires HasNode(g, nodeId)
    requires AddNode(g, op, nodeId, source).Ok?
    requires name in op.attrs && Listed(name, op.attrs[name]) && name !in ComplexNames
    requires var v := op.attrs[name]; v.PStr? && v.s != "" && v.s[0] != '<'
    requires FindParam(g.nodes[FindNode(g.nodes, nodeId)].parameters, name) < |g.nodes[FindNode(g.nodes, nodeId)].parameters|
    ensures var i := FindNode(g.nodes, nodeId);
            var items := g.nodes[i].parameters;
            var j := FindParam(items, name);
            AddNode(g, op, nodeId, source).value.nodes[i].parameters[j] == items[j].(text := Some(op.attrs[name].s))
  {
    AddNodeOverwrites(g, op, nodeId, source);
    var names := ListedNames(op.attrs);
    var k :| 0 <= k < |names| && names[k] == name;
    UpdateParamsSetsText(g.nodes[FindNode(g.nodes, nodeId)].parameters, names, op.attrs, k);
  }

  /**
   Renaming the operator before `add_node` changes only the written operator
   name: the call succeeds or fails alike and every node, parameter and
   source is the same.
   */
  lemma AddNodeAfterRename(g: Graph, op: Operator, nodeId: string, source: SourceArg, name: string)
    ensures var r := AddNode(g, SetOperatorName(op, name), nodeId, source);
            var r0 := AddNode(g, op, nodeId, source);
            var i := FindNode(g.nodes, nodeId);
            && (r.Ok? <==> r0.Ok?)
            && (r.Ok? ==> && |r.value.nodes| == |r0.value.nodes| && i < |r.value.nodes|
                          && r.value.nodes[i] == r0.value.nodes[i].(operator := name)
                          && (forall j :: 0 <= j < |r.value.nodes| && j != i ==> r.value.nodes[j] == r0.value.nodes[j]))
  {
  }

  /** `add_node` keeps node ids unique. */
  lemma AddNodeKeepsIdsUnique(g: Graph, op: Operator, nodeId: string, source: SourceArg)
    requires UniqueIds(g)
    requires AddNode(g, op, nodeId, source).Ok?
    ensures UniqueIds(AddNode(g, op, nodeId, source).value)
    ensures HasNode(AddNode(g, op, nodeId, source).value, nodeId)
  {
    var r := AddNode(g, op, nodeId, source).value;
    if HasNode(g, nodeId) {
      AddNodeOverwrites(g, op, nodeId, source);
      var i := FindNode(g.nodes, nodeId);
      assert r.nodes[i].id == nodeId;
    } else {
      AddNodeAppends(g, op, nodeId, source);
      assert r.nodes[|g.nodes|].id == nodeId;
    }
  }

  /** Adding the same node twice leaves one node, not two. */
  lemma AddNodeTwiceOneNode(g: Graph, op: Operator, nodeId: string, source: SourceArg)
    requires !HasNode(g, nodeId)
    requires AddNode(g, op, nodeId, source).Ok?
    ensures var g1 := AddNode(g, op, nodeId, source).value;
            var r := AddNode(g1, op, nodeId, source);
            r.Ok? ==> |r.value.nodes| == |g.nodes| + 1
  {
    AddNodeAppends(g, op, nodeId, source);
    var g1 := AddNode(g, op, nodeId, source).value;
    assert g1.nodes[|g.nodes|].id == nodeId;
    AddNodeOverwrites(g1, op, nodeId, source);
  }
}
