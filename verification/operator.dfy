/**
 SNAP operators (`eocanvas.snap.operator`, `eocanvas.snap.operatorparams`):
 an operator name checked against the operator catalogue, with its
 parameters set to the catalogue defaults overridden by keyword values. The
 catalogue, a static file in the library, is a parameter here.
 */
module SnapOperator {
  import opened Wrappers
  import opened Errors
  import Json

  /**
   A parameter value: `None`, a string, one of the binning/band descriptor
   objects that render themselves as XML (kept as that XML text), or any
   other value (numbers, booleans, lists).
   */
  datatype PValue = PNone | PStr(s: string) | PComplex(kind: string, xml: string) | POther(v: Json.Value)

  /** Python truthiness of a parameter value; the descriptor objects are always true. */
  predicate PTruthy(v: PValue) {
    match v
    case PNone => false
    case PStr(s) => s != ""
    case PComplex(_, _) => true
    case POther(x) => Json.Truthy(x)
  }

  /** A catalogue entry's parameter: its `default_values`, when the entry has one. */
  datatype ParamInfo = ParamInfo(defaultValue: Option<PValue>)

  /** Operator name to parameter name to parameter description. */
  type Catalogue = map<string, map<string, ParamInfo>>

  /** `OperatorParams(operator).params`: every catalogued parameter with its default, `None` when it has none. */
  function DefaultParams(name: string, cat: Catalogue): (r: Result<map<string, PValue>>)
    ensures r.Ok? <==> name in cat
    ensures r.Err? ==> r.error == SnapOperatorNotFound(name)
    ensures r.Ok? ==> r.value.Keys == cat[name].Keys
    ensures r.Ok? ==> forall p :: p in r.value && cat[name][p].defaultValue.None? ==> r.value[p] == PNone
    ensures r.Ok? ==> forall p :: p in r.value && cat[name][p].defaultValue.Some? ==> r.value[p] == cat[name][p].defaultValue.value
  {
    if name !in cat then Err(SnapOperatorNotFound(name))
    else Ok(map p | p in cat[name] :: cat[name][p].defaultValue.GetOr(PNone))
  }

  /** `{**defaults, **overrides}`: the union of the keys, the overriding value where both have one. */
  function Merge(defaults: map<string, PValue>, overrides: map<string, PValue>): (r: map<string, PValue>)
    ensures r.Keys == defaults.Keys + overrides.Keys
    ensures forall k :: k in overrides ==> r[k] == overrides[k]
    ensures forall k :: k in defaults && k !in overrides ==> r[k] == defaults[k]
  {
    map k | k in defaults.Keys + overrides.Keys :: if k in overrides then overrides[k] else defaults[k]
  }

  /** Attribute names the operator object itself uses; a parameter of that name would shadow them. */
  const Reserved: set<string> := {"operator", "_params", "_snap_operators"}

  /**
   An `Operator`: its name, `_params` (the parameters it was built with) and
   the current values of its parameter attributes.
   */
  datatype Operator = Operator(operator: string, params: map<string, PValue>, attrs: map<string, PValue>)

  /** Every parameter is an attribute. */
  predicate Valid(op: Operator) {
    op.params.Keys <= op.attrs.Keys
  }

  /**
   `Operator(name, **kwargs)`. A keyword named `operator` clashes with the
   positional argument; an unknown name is refused; the parameters are the
   defaults overridden by the keywords.
   */
  function NewOperator(name: string, kwargs: map<string, PValue>, cat: Catalogue): (r: Result<Operator>)
    ensures "operator" in kwargs ==> r == Err(UnexpectedKeyword("operator"))
    ensures r.Ok? <==> "operator" !in kwargs && name in cat && (cat[name].Keys + kwargs.Keys) !! Reserved
    ensures "operator" !in kwargs && name !in cat ==> r == Err(SnapOperatorNotFound(name))
    ensures r.Ok? ==> name in cat && r.value.operator == name && Valid(r.value)
    ensures r.Ok? ==> r.value.params.Keys == cat[name].Keys + kwargs.Keys
    ensures r.Ok? ==> forall k :: k in kwargs ==> r.value.params[k] == kwargs[k]
    ensures r.Ok? ==> forall k :: k in cat[name] && k !in kwargs ==> r.value.params[k] == cat[name][k].defaultValue.GetOr(PNone)
    ensures r.Ok? ==> r.value.attrs == r.value.params
  {
    if "operator" in kwargs then Err(UnexpectedKeyword("operator"))
    else
      var defaults :- DefaultParams(name, cat);
      var params := Merge(defaults, kwargs);
      if !(params.Keys !! Reserved) then Err(Unsupported("parameter shadowing an operator attribute"))
      else Ok(Operator(name, params, params))
  }

  /** `setattr(op, name, value)` on a parameter attribute. */
  function SetAttr(op: Operator, name: string, value: PValue): (r: Result<Operator>)
    ensures r.Ok? <==> name !in Reserved
    ensures r.Ok? ==> r.value.operator == op.operator && r.value.params == op.params
    ensures r.Ok? ==> name in r.value.attrs && r.value.attrs[name] == value
    ensures r.Ok? ==> forall k :: k in op.attrs && k != name ==> k in r.value.attrs && r.value.attrs[k] == op.attrs[k]
    ensures r.Ok? && Valid(op) ==> Valid(r.value)
  {
    if name in Reserved then Err(Unsupported("assignment to " + name))
    else Ok(op.(attrs := op.attrs[name := value]))
  }

  /**
   `op.operator = name`: renaming the operator touches neither the parameters
   nor their attributes, so `add_node` writes the new name with the same
   parameter elements.
   */
  function SetOperatorName(op: Operator, name: string): (r: Operator)
    ensures r.operator == name
    ensures r.params == op.params && r.attrs == op.attrs
    ensures Valid(op) ==> Valid(r)
  {
    op.(operator := name)
  }

  /** `to_dict`: the current value of every parameter the operator was built with. */
  function ToDict(op: Operator): (d: map<string, PValue>)
    requires Valid(op)
    ensures d.Keys == op.params.Keys
    ensures forall k :: k in d ==> d[k] == op.attrs[k]
  {
    map k | k in op.params :: op.attrs[k]
  }

  /** Right after construction, `to_dict` is the merged parameter map. */
  lemma ToDictAfterNew(name: string, kwargs: map<string, PValue>, cat: Catalogue)
    requires NewOperator(name, kwargs, cat).Ok?
    ensures var op := NewOperator(name, kwargs, cat).value;
            ToDict(op) == Merge(DefaultParams(name, cat).value, kwargs)
  {
  }

  /** Assigning a parameter shows in `to_dict`; assigning any other attribute does not. */
  lemma ToDictAfterSetAttr(op: Operator, name: string, value: PValue)
    requires Valid(op) && name !in Reserved
    ensures var op' := SetAttr(op, name, value).value;
            && (name in op.params ==> ToDict(op') == ToDict(op)[name := value])
            && (name !in op.params ==> ToDict(op') == ToDict(op))
  {
  }
}
