/**
 The three concrete processes (`eocanvas/processes.py`): a SNAP graph run,
 a Data Tailor chain run and the ShearWater demo. Each fills in a default
 process id, accepts a single input where a list is expected, and builds
 the `inputs` block of the submission envelope. Serialising the graph to
 XML, dumping YAML and JSON and encoding text as UTF-8 are parameters.
 */
module Processes {
  import opened Wrappers
  import opened Errors
  import opened Json
  import Base64
  import Api
  import SnapGraph
  import DataTailor
  import Strptime

  /** An argument that may be a single item or a list of them. */
  datatype OneOrMany<T> = One(item: T) | Many(items: seq<T>)

  /** `x if isinstance(x, list) else [x]`. */
  function AsList<T>(v: OneOrMany<T>): (r: seq<T>)
    ensures v.One? ==> r == [v.item]
    ensures v.Many? ==> r == v.items
  {
    match v
    case One(x) => [x]
    case Many(xs) => xs
  }

  /** `__post_init__`'s `if self.process_id is None: self.process_id = id`. */
  function WithDefaultId(p: Api.Process, id: string): (r: Api.Process)
    ensures r.processId.Some?
    ensures p.processId.Some? ==> r == p
    ensures p.processId.None? ==> r == p.(processId := Some(id))
  {
    if p.processId.None? then p.(processId := Some(id)) else p
  }

  /** `[i.asdict() for i in inputs]`. */
  function InputDicts(xs: seq<Api.Input>): (r: seq<Value>)
    ensures |r| == |xs|
    ensures forall i :: 0 <= i < |xs| ==> r[i] == Api.InputAsDict(xs[i])
  {
    seq(|xs|, i requires 0 <= i < |xs| => Api.InputAsDict(xs[i]))
  }

  /** `[c.asdict() for c in configs]`. */
  function ConfigDicts(xs: seq<Api.Config>): (r: seq<Value>)
    ensures |r| == |xs|
    ensures forall i :: 0 <= i < |xs| ==> r[i] == Api.ConfigAsDict(xs[i])
  {
    seq(|xs|, i requires 0 <= i < |xs| => Api.ConfigAsDict(xs[i]))
  }

  // ---------------------------------------------------------------------
  // SNAP

  datatype SnapProcess = SnapProcess(base: Api.Process, graph: SnapGraph.Graph, eoInput: seq<Api.Input>, eoConfig: seq<Api.Config>)

  function NewSnapProcess(base: Api.Process, graph: SnapGraph.Graph,
                          eoInput: OneOrMany<Api.Input>, eoConfig: OneOrMany<Api.Config>): (p: SnapProcess)
    ensures p.base == WithDefaultId(base, "snap-function")
    ensures p.graph == graph
    ensures p.eoInput == AsList(eoInput) && p.eoConfig == AsList(eoConfig)
  {
    SnapProcess(WithDefaultId(base, "snap-function"), graph, AsList(eoInput), AsList(eoConfig))
  }

  function SnapInputs(p: SnapProcess, serialize: SnapGraph.Graph -> seq<Base64.byte>, dumps: Value -> string): (m: map<string, Value>)
    ensures m.Keys == {"snap_graph", "eo_input", "eo_config"}
  {
    map["snap_graph" := Str(Base64.Encode(serialize(p.graph))),
        "eo_input" := Str(dumps(List(InputDicts(p.eoInput)))),
        "eo_config" := Str(dumps(List(ConfigDicts(p.eoConfig))))]
  }

  /** Every field of the SNAP inputs decodes back to what the process holds. */
  lemma SnapInputsRoundTrip(p: SnapProcess, serialize: SnapGraph.Graph -> seq<Base64.byte>, parse: seq<Base64.byte> -> SnapGraph.Graph,
                            dumps: Value -> string, loads: string -> Value)
    requires IsCodec(serialize, parse) && IsCodec(dumps, loads)
    ensures var m := SnapInputs(p, serialize, dumps);
            && m["snap_graph"].Str? && Base64.Decode(m["snap_graph"].s).Some?
            && parse(Base64.Decode(m["snap_graph"].s).value) == p.graph
            && m["eo_input"].Str? && loads(m["eo_input"].s) == List(InputDicts(p.eoInput))
            && m["eo_config"].Str? && loads(m["eo_config"].s) == List(ConfigDicts(p.eoConfig))
  {
    Base64.DecodeEncode(serialize(p.graph));
  }

  /** `SnapProcess.prepare_inputs` as written: the output key is never sent. */
  function SnapPrepareInputsAsWritten(p: SnapProcess, serialize: SnapGraph.Graph -> seq<Base64.byte>, dumps: Value -> string): (v: Value)
    ensures Api.IsEnvelope(v) && v.fields["outputs"] == Dict(map[])
    ensures v.fields["inputs"] == Dict(SnapInputs(p, serialize, dumps))
  {
    Api.Envelope(SnapInputs(p, serialize, dumps), map[])
  }

  /** `SnapProcess.prepare_inputs` with the base class's `outputs` block kept. */
  function SnapPrepareInputs(p: SnapProcess, serialize: SnapGraph.Graph -> seq<Base64.byte>, dumps: Value -> string): (v: Value)
    ensures Api.IsEnvelope(v)
    ensures v.fields["outputs"] == Api.PrepareInputs(p.base).fields["outputs"]
    ensures v.fields["inputs"] == Dict(SnapInputs(p, serialize, dumps))
  {
    Api.Envelope(SnapInputs(p, serialize, dumps), Api.OutputsFor(p.base.output))
  }

  // ---------------------------------------------------------------------
  // Data Tailor

  datatype DataTailorProcess = DataTailorProcess(base: Api.Process, chain: DataTailor.Chain, epctInput: seq<Api.Input>)

  function NewDataTailorProcess(base: Api.Process, chain: DataTailor.Chain, epctInput: OneOrMany<Api.Input>): (p: DataTailorProcess)
    ensures p.base == WithDefaultId(base, "dataTailor")
    ensures p.chain == chain && p.epctInput == AsList(epctInput)
  {
    DataTailorProcess(WithDefaultId(base, "dataTailor"), chain, AsList(epctInput))
  }

  function DataTailorInputs(p: DataTailorProcess, yamlDump: Value -> string, utf8: string -> seq<Base64.byte>,
                            dumps: Value -> string): (m: map<string, Value>)
    ensures m.Keys == {"epct_chain", "epct_input"}
  {
    map["epct_chain" := Str(DataTailor.B64Encode(p.chain, yamlDump, utf8)),
        "epct_input" := Str(dumps(List(InputDicts(p.epctInput))))]
  }

  /** `DataTailorProcess.prepare_inputs` as written: the output key is never sent. */
  function DataTailorPrepareInputsAsWritten(p: DataTailorProcess, yamlDump: Value -> string, utf8: string -> seq<Base64.byte>,
                                            dumps: Value -> string): (v: Value)
    ensures Api.IsEnvelope(v) && v.fields["outputs"] == Dict(map[])
    ensures v.fields["inputs"] == Dict(DataTailorInputs(p, yamlDump, utf8, dumps))
  {
    Api.Envelope(DataTailorInputs(p, yamlDump, utf8, dumps), map[])
  }

  /** `DataTailorProcess.prepare_inputs` with the base class's `outputs` block kept. */
  function DataTailorPrepareInputs(p: DataTailorProcess, yamlDump: Value -> string, utf8: string -> seq<Base64.byte>,
                                   dumps: Value -> string): (v: Value)
    ensures Api.IsEnvelope(v)
    ensures v.fields["outputs"] == Api.PrepareInputs(p.base).fields["outputs"]
    ensures v.fields["inputs"] == Dict(DataTailorInputs(p, yamlDump, utf8, dumps))
  {
    Api.Envelope(DataTailorInputs(p, yamlDump, utf8, dumps), Api.OutputsFor(p.base.output))
  }

  /**
   A default chain and one input stored under key store `key`: the chain
   encodes to `e30K` and the input list to whatever JSON text `dumps` gives
   for its one `asdict`. Without an output the two readings agree.
   */
  lemma DataTailorExample(base: Api.Process, yamlDump: Value -> string, utf8: string -> seq<Base64.byte>,
                          dumps: Value -> string, key: string, json: string)
    requires base.output.None?
    requires yamlDump(Dict(map[])) == "{}\n"
    requires utf8("{}\n") == [123, 125, 10]
    requires dumps(List([Dict(map["k" := Str("v"), "schema" := Str("keystore://" + key)])])) == json
    ensures var p := NewDataTailorProcess(base, DataTailor.DefaultChain, One(Api.Input("k", "v", Some(Api.ByName(key)))));
            && DataTailorInputs(p, yamlDump, utf8, dumps) == map["epct_chain" := Str("e30K"), "epct_input" := Str(json)]
            && DataTailorPrepareInputs(p, yamlDump, utf8, dumps) == DataTailorPrepareInputsAsWritten(p, yamlDump, utf8, dumps)
  {
    DataTailor.DefaultChainEncoding(yamlDump, utf8);
    var i := Api.Input("k", "v", Some(Api.ByName(key)));
    assert InputDicts([i]) == [Api.InputAsDict(i)];
    assert Api.InputAsDict(i) == Dict(map["k" := Str("v"), "schema" := Str("keystore://" + key)]);
  }

  /** An output key changes nothing in the as-written envelope, but does in the corrected one. */
  lemma DataTailorOutputKeyDropped(p: DataTailorProcess, yamlDump: Value -> string, utf8: string -> seq<Base64.byte>,
                                   dumps: Value -> string, key: string)
    ensures var q := p.(base := p.base.(output := Some(Api.ByName(key))));
            && DataTailorPrepareInputsAsWritten(q, yamlDump, utf8, dumps) == DataTailorPrepareInputsAsWritten(p.(base := p.base.(output := None)), yamlDump, utf8, dumps)
            && DataTailorPrepareInputs(q, yamlDump, utf8, dumps).fields["outputs"] != Dict(map[])
            && DataTailorPrepareInputs(q, yamlDump, utf8, dumps).fields["outputs"].fields["output"]
               == Dict(map["format" := Dict(map["schema" := Str("keystore://" + key)])])
  {
  }

  /** The same holds for SNAP processes. */
  lemma SnapOutputKeyDropped(p: SnapProcess, serialize: SnapGraph.Graph -> seq<Base64.byte>, dumps: Value -> string, key: string)
    ensures var q := p.(base := p.base.(output := Some(Api.ByName(key))));
            && SnapPrepareInputsAsWritten(q, serialize, dumps) == SnapPrepareInputsAsWritten(p.(base := p.base.(output := None)), serialize, dumps)
            && SnapPrepareInputs(q, serialize, dumps).fields["outputs"].fields["output"]
               == Dict(map["format" := Dict(map["schema" := Str("keystore://" + key)])])
  {
  }

  // ---------------------------------------------------------------------
  // ShearWater

  datatype ShearWaterProcess = ShearWaterProcess(base: Api.Process, area: string, startDay: string, endDay: string)

  /** The areas the demo serves. */
  const ValidAreas: set<string> := {"Sindian"}

  /** The constructor: an unknown area first, then each date in turn, is refused with `ValueError`. */
  function NewShearWaterProcess(base: Api.Process, area: string, startDay: string, endDay: string): (r: Result<ShearWaterProcess>)
    ensures r.Ok? <==> area in ValidAreas && Strptime.Accepts(startDay) && Strptime.Accepts(endDay)
    ensures area !in ValidAreas ==> r == Err(InvalidArea(area))
    ensures area in ValidAreas && !Strptime.Accepts(startDay) ==> r == Err(BadDate("start_day", startDay))
    ensures area in ValidAreas && Strptime.Accepts(startDay) && !Strptime.Accepts(endDay) ==> r == Err(BadDate("end_day", endDay))
    ensures r.Ok? ==> r.value == ShearWaterProcess(WithDefaultId(base, "shearwater-demo"), area, startDay, endDay)
  {
    if area !in ValidAreas then Err(InvalidArea(area))
    else if !Strptime.Accepts(startDay) then Err(BadDate("start_day", startDay))
    else if !Strptime.Accepts(endDay) then Err(BadDate("end_day", endDay))
    else Ok(ShearWaterProcess(WithDefaultId(base, "shearwater-demo"), area, startDay, endDay))
  }

  function ShearWaterInputs(p: ShearWaterProcess): (m: map<string, Value>)
    ensures m.Keys == {"area", "startDay", "endDay"}
    ensures m["area"] == Str(p.area) && m["startDay"] == Str(p.startDay) && m["endDay"] == Str(p.endDay)
  {
    map["area" := Str(p.area), "startDay" := Str(p.startDay), "endDay" := Str(p.endDay)]
  }

  /** `ShearWaterProcess.prepare_inputs` as written: the output key is never sent. */
  function ShearWaterPrepareInputsAsWritten(p: ShearWaterProcess): (v: Value)
    ensures Api.IsEnvelope(v) && v.fields["outputs"] == Dict(map[])
    ensures v.fields["inputs"] == Dict(ShearWaterInputs(p))
  {
    Api.Envelope(ShearWaterInputs(p), map[])
  }

  /** `ShearWaterProcess.prepare_inputs` with the base class's `outputs` block kept. */
  function ShearWaterPrepareInputs(p: ShearWaterProcess): (v: Value)
    ensures Api.IsEnvelope(v)
    ensures v.fields["outputs"] == Api.PrepareInputs(p.base).fields["outputs"]
    ensures v.fields["inputs"] == Dict(ShearWaterInputs(p))
  {
    Api.Envelope(ShearWaterInputs(p), Api.OutputsFor(p.base.output))
  }

  /** The constructor cases the library's tests exercise. */
  lemma ShearWaterExamples(base: Api.Process, bad: string)
    requires bad == "abc"
    ensures NewShearWaterProcess(base, "unknown", "1970-01-01", "1970-01-01") == Err(InvalidArea("unknown"))
    ensures NewShearWaterProcess(base, "Sindian", bad, "1970-01-01") == Err(BadDate("start_day", bad))
    ensures NewShearWaterProcess(base, "Sindian", "1970-01-01", bad) == Err(BadDate("end_day", bad))
    ensures NewShearWaterProcess(base, "Sindian", "1970-01-01", "1970-01-01").Ok?
  {
    Strptime.AcceptsEpoch();
    Strptime.RefusesText(bad);
  }
}
