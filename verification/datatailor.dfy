/**
 The Data Tailor chain configuration (`eocanvas.datatailor.chain`): records
 of optional fields whose `asdict` drops the `None` fields of every record,
 sub-records built from plain mappings, and the base64 text of the chain's
 YAML form that a customisation job receives.
 */
module DataTailor {
  import opened Wrappers
  import opened Errors
  import opened Json
  import opened Strings
  import Base64

  // ---------------------------------------------------------------------
  // `_none_filter`

  predicate NoNullValues(m: map<string, Value>) {
    forall k :: k in m ==> m[k] != Null
  }

  /** `_none_filter`: the entries whose value is not `None`. */
  function NoneFilter(m: map<string, Value>): (r: map<string, Value>)
    ensures NoNullValues(r)
    ensures forall k :: k in r <==> k in m && m[k] != Null
    ensures forall k :: k in r ==> r[k] == m[k]
    ensures forall k :: k in m && m[k] != Null ==> k in r && r[k] == m[k]
    ensures r.Keys <= m.Keys
  {
    map k | k in m && m[k] != Null :: m[k]
  }

  /** Filtering twice changes nothing more. */
  lemma NoneFilterIdempotent(m: map<string, Value>)
    ensures NoneFilter(NoneFilter(m)) == NoneFilter(m)
  {
  }

  /** A value given for a field, `None` when the keyword is absent. */
  function Arg(kwargs: map<string, Value>, name: string): Value {
    if name in kwargs then kwargs[name] else Null
  }

  /**
   The `TypeError` of a dataclass call with keywords it does not declare.
   The dictionary order that decides which keyword is named is not modelled:
   the least one is named.
   */
  function CheckKeywords(kwargs: map<string, Value>, fields: set<string>): (r: Option<Error>)
    ensures r.None? <==> kwargs.Keys <= fields
    ensures r.Some? ==> r.value.UnexpectedKeyword? && r.value.name in kwargs && r.value.name !in fields
  {
    if kwargs.Keys <= fields then None
    else
      var extra := kwargs.Keys - fields;
      var k :| k in kwargs && k !in fields;
      assert k in extra;
      var sorted := SortedKeys(extra);
      assert sorted[0] in extra;
      Some(UnexpectedKeyword(sorted[0]))
  }

  /** A field that holds a sub-record, a plain value (`None`, a mapping not yet converted, or anything else). */
  datatype Slot<T> = Plain(v: Value) | Model(m: T)

  // ---------------------------------------------------------------------
  // The records

  datatype Filter = Filter(id: Value, bands: Value, name: Value, product: Value)

  datatype RegionOfInterest = RegionOfInterest(id: Value, name: Value, nswe: Value, description: Value)

  datatype Quicklook = Quicklook(
    id: Value, name: Value, resampleMethod: Value, stretchMethod: Value, product: Value,
    format: Value, nodatacolor: Value, filter: Slot<Filter>, xSize: Value)

  datatype Chain = Chain(
    id: Value, product: Value, format: Value, name: Value, description: Value,
    aggregation: Value, projection: Value,
    roi: Slot<RegionOfInterest>, filter: Slot<Filter>, quicklook: Slot<Quicklook>,
    resampleMethod: Value, resampleResolution: Value, compression: Value, xritSegments: Value)

  const FilterFields: set<string> := {"id", "bands", "name", "product"}
  const RoiFields: set<string> := {"id", "name", "NSWE", "description"}
  const QuicklookFields: set<string> :=
    {"id", "name", "resample_method", "stretch_method", "product", "format", "nodatacolor", "filter", "x_size"}
  const ChainFields: set<string> :=
    {"id", "product", "format", "name", "description", "aggregation", "projection", "roi", "filter",
     "quicklook", "resample_method", "resample_resolution", "compression", "xrit_segments"}

  /** `Chain()`: every field `None`. */
  const DefaultChain: Chain :=
    Chain(Null, Null, Null, Null, Null, Null, Null, Plain(Null), Plain(Null), Plain(Null), Null, Null, Null, Null)

  // ---------------------------------------------------------------------
  // `asdict`

  /** The value a slot contributes to `asdict`: a sub-record becomes its own filtered dictionary. */
  function SlotValue<T>(s: Slot<T>, asDict: T -> map<string, Value>): Value {
    match s
    case Plain(v) => v
    case Model(x) => Dict(asDict(x))
  }

  function FilterFieldValue(f: Filter, k: string): Value {
    if k == "id" then f.id else if k == "bands" then f.bands else if k == "name" then f.name
    else if k == "product" then f.product else Null
  }

  /** `Filter.asdict`: exactly the fields that are not `None`, with their values. */
  function FilterAsDict(f: Filter): (r: map<string, Value>)
    ensures NoNullValues(r) && r.Keys <= FilterFields
    ensures forall k :: k in FilterFields ==> (k in r <==> FilterFieldValue(f, k) != Null)
    ensures forall k :: k in r ==> r[k] == FilterFieldValue(f, k)
  {
    NoneFilter(map k | k in FilterFields :: FilterFieldValue(f, k))
  }

  function RoiFieldValue(r: RegionOfInterest, k: string): Value {
    if k == "id" then r.id else if k == "name" then r.name else if k == "NSWE" then r.nswe
    else if k == "description" then r.description else Null
  }

  /** `RegionOfInterest.asdict`: exactly the fields that are not `None`, with their values. */
  function RoiAsDict(r: RegionOfInterest): (d: map<string, Value>)
    ensures NoNullValues(d) && d.Keys <= RoiFields
    ensures forall k :: k in RoiFields ==> (k in d <==> RoiFieldValue(r, k) != Null)
    ensures forall k :: k in d ==> d[k] == RoiFieldValue(r, k)
  {
    NoneFilter(map k | k in RoiFields :: RoiFieldValue(r, k))
  }

  /** The value a filter slot contributes: a `Filter` becomes its own filtered dictionary. */
  function FilterSlotValue(s: Slot<Filter>): (v: Value)
    ensures s.Model? ==> v.Dict? && NoNullValues(v.fields)
  {
    SlotValue(s, FilterAsDict)
  }

  function QuicklookFieldValue(q: Quicklook, k: string): Value {
    if k == "id" then q.id else if k == "name" then q.name
    else if k == "resample_method" then q.resampleMethod else if k == "stretch_method" then q.stretchMethod
    else if k == "product" then q.product else if k == "format" then q.format
    else if k == "nodatacolor" then q.nodatacolor else if k == "filter" then FilterSlotValue(q.filter)
    else if k == "x_size" then q.xSize else Null
  }

  /** `Quicklook.asdict`: exactly the fields that are not `None`, the nested filter as its own dictionary. */
  function QuicklookAsDict(q: Quicklook): (d: map<string, Value>)
    ensures NoNullValues(d) && d.Keys <= QuicklookFields
    ensures forall k :: k in QuicklookFields ==> (k in d <==> QuicklookFieldValue(q, k) != Null)
    ensures forall k :: k in d ==> d[k] == QuicklookFieldValue(q, k)
    ensures q.filter.Model? ==> "filter" in d && d["filter"] == Dict(FilterAsDict(q.filter.m))
  {
    NoneFilter(map k | k in QuicklookFields :: QuicklookFieldValue(q, k))
  }

  function ChainFieldValue(c: Chain, k: string): Value {
    if k == "id" then c.id else if k == "product" then c.product else if k == "format" then c.format
    else if k == "name" then c.name else if k == "description" then c.description
    else if k == "aggregation" then c.aggregation else if k == "projection" then c.projection
    else if k == "roi" then SlotValue(c.roi, RoiAsDict) else if k == "filter" then FilterSlotValue(c.filter)
    else if k == "quicklook" then SlotValue(c.quicklook, QuicklookAsDict)
    else if k == "resample_method" then c.resampleMethod else if k == "resample_resolution" then c.resampleResolution
    else if k == "compression" then c.compression else if k == "xrit_segments" then c.xritSegments else Null
  }

  /**
   `Chain.asdict`: exactly the fields that are not `None`, each sub-record as
   its own dictionary, so no `None` at the chain's level nor inside any
   sub-record.
   */
  function ChainAsDict(c: Chain): (d: map<string, Value>)
    ensures NoNullValues(d) && d.Keys <= ChainFields
    ensures forall k :: k in ChainFields ==> (k in d <==> ChainFieldValue(c, k) != Null)
    ensures forall k :: k in d ==> d[k] == ChainFieldValue(c, k)
    ensures c.roi.Model? ==> "roi" in d && d["roi"] == Dict(RoiAsDict(c.roi.m))
    ensures c.filter.Model? ==> "filter" in d && d["filter"] == Dict(FilterAsDict(c.filter.m))
    ensures c.quicklook.Model? ==> "quicklook" in d && d["quicklook"] == Dict(QuicklookAsDict(c.quicklook.m))
  {
    NoneFilter(map k | k in ChainFields :: ChainFieldValue(c, k))
  }

  /** The all-default chain is the empty dictionary. */
  lemma DefaultChainIsEmpty()
    ensures ChainAsDict(DefaultChain) == map[]
  {
    var d := ChainAsDict(DefaultChain);
    forall k | k in d
      ensures false
    {
    }
  }

  // ---------------------------------------------------------------------
  // Construction from keyword mappings

  /** `Filter(**kwargs)`. */
  function NewFilter(kwargs: map<string, Value>): (r: Result<Filter>)
    ensures r.Ok? <==> kwargs.Keys <= FilterFields
    ensures r.Ok? ==> forall k :: k in FilterFields ==> FilterFieldValue(r.value, k) == Arg(kwargs, k)
  {
    match CheckKeywords(kwargs, FilterFields)
    case Some(e) => Err(e)
    case None => Ok(Filter(Arg(kwargs, "id"), Arg(kwargs, "bands"), Arg(kwargs, "name"), Arg(kwargs, "product")))
  }

  /** `RegionOfInterest(**kwargs)`. */
  function NewRoi(kwargs: map<string, Value>): (r: Result<RegionOfInterest>)
    ensures r.Ok? <==> kwargs.Keys <= RoiFields
    ensures r.Ok? ==> r.value.nswe == Arg(kwargs, "NSWE") && r.value.id == Arg(kwargs, "id")
    ensures r.Ok? ==> r.value.name == Arg(kwargs, "name") && r.value.description == Arg(kwargs, "description")
  {
    match CheckKeywords(kwargs, RoiFields)
    case Some(e) => Err(e)
    case None => Ok(RegionOfInterest(Arg(kwargs, "id"), Arg(kwargs, "name"), Arg(kwargs, "NSWE"), Arg(kwargs, "description")))
  }

  /** A slot holds no mapping left unconverted, as every constructor leaves it. */
  predicate Built<T>(s: Slot<T>) {
    !(s.Plain? && s.v.Dict?)
  }

  /** A value given for a slot can be converted: it is not a mapping, or the record builds from it. */
  predicate Builds<T>(v: Value, build: map<string, Value> -> Result<T>) {
    v.Dict? ==> build(v.fields).Ok?
  }

  /** A slot given as a mapping becomes the sub-record built from it; anything else is kept. */
  function Coerce<T>(v: Value, build: map<string, Value> -> Result<T>): (r: Result<Slot<T>>)
    ensures r.Ok? <==> Builds(v, build)
    ensures !v.Dict? ==> r == Ok(Plain(v))
    ensures v.Dict? && r.Ok? ==> r.value == Model(build(v.fields).value)
    ensures r.Ok? ==> Built(r.value)
  {
    match v
    case Dict(m) => (match build(m) case Ok(x) => Ok(Model(x)) case Err(e) => Err(e))
    case _ => Ok(Plain(v))
  }

  /** `Quicklook(**kwargs)`: a `filter` given as a dictionary becomes a `Filter`. */
  function NewQuicklook(kwargs: map<string, Value>): (r: Result<Quicklook>)
    ensures r.Ok? <==> kwargs.Keys <= QuicklookFields && Builds(Arg(kwargs, "filter"), NewFilter)
    ensures kwargs.Keys <= QuicklookFields && !Arg(kwargs, "filter").Dict? ==> r.Ok? && r.value.filter == Plain(Arg(kwargs, "filter"))
    ensures r.Ok? && Arg(kwargs, "filter").Dict? ==> r.value.filter.Model? && Ok(r.value.filter.m) == NewFilter(Arg(kwargs, "filter").fields)
    ensures r.Ok? ==> r.value.id == Arg(kwargs, "id") && r.value.product == Arg(kwargs, "product") && r.value.xSize == Arg(kwargs, "x_size")
    ensures r.Ok? ==> forall k :: k in QuicklookFields && k != "filter" ==> QuicklookFieldValue(r.value, k) == Arg(kwargs, k)
    ensures r.Ok? ==> Built(r.value.filter)
    ensures !(kwargs.Keys <= QuicklookFields) ==> r.Err? && r.error.UnexpectedKeyword?
  {
    match CheckKeywords(kwargs, QuicklookFields)
    case Some(e) => Err(e)
    case None =>
      var filter :- Coerce(Arg(kwargs, "filter"), NewFilter);
      Ok(Quicklook(Arg(kwargs, "id"), Arg(kwargs, "name"), Arg(kwargs, "resample_method"),
                   Arg(kwargs, "stretch_method"), Arg(kwargs, "product"), Arg(kwargs, "format"),
                   Arg(kwargs, "nodatacolor"), filter, Arg(kwargs, "x_size")))
  }

  /** Every slot of a chain, and the filter slot of its quicklook, holds no unconverted mapping. */
  predicate ChainBuilt(c: Chain) {
    && Built(c.roi) && Built(c.filter) && Built(c.quicklook)
    && (c.quicklook.Model? ==> Built(c.quicklook.m.filter))
  }

  /**
   `Chain(**kwargs)` with its `__post_init__`: `filter`, then `roi`, then
   `quicklook`, when given as mappings, become their records; every other
   field is kept as given.
   */
  function NewChain(kwargs: map<string, Value>): (r: Result<Chain>)
    ensures r.Ok? <==> && kwargs.Keys <= ChainFields
                       && Builds(Arg(kwargs, "filter"), NewFilter)
                       && Builds(Arg(kwargs, "roi"), NewRoi)
                       && Builds(Arg(kwargs, "quicklook"), NewQuicklook)
    ensures !(kwargs.Keys <= ChainFields) ==> r.Err? && r.error.UnexpectedKeyword?
    ensures r.Ok? ==> ChainBuilt(r.value)
    ensures r.Ok? ==> forall k :: k in ChainFields && k !in {"roi", "filter", "quicklook"} ==> ChainFieldValue(r.value, k) == Arg(kwargs, k)
    ensures r.Ok? ==>
              && r.value.id == Arg(kwargs, "id") && r.value.product == Arg(kwargs, "product")
              && r.value.format == Arg(kwargs, "format") && r.value.name == Arg(kwargs, "name")
              && r.value.description == Arg(kwargs, "description")
              && r.value.aggregation == Arg(kwargs, "aggregation") && r.value.projection == Arg(kwargs, "projection")
              && r.value.resampleMethod == Arg(kwargs, "resample_method")
              && r.value.resampleResolution == Arg(kwargs, "resample_resolution")
              && r.value.compression == Arg(kwargs, "compression") && r.value.xritSegments == Arg(kwargs, "xrit_segments")
    ensures r.Ok? ==> (r.value.roi.Model? <==> Arg(kwargs, "roi").Dict?)
    ensures r.Ok? ==> (r.value.filter.Model? <==> Arg(kwargs, "filter").Dict?)
    ensures r.Ok? ==> (r.value.quicklook.Model? <==> Arg(kwargs, "quicklook").Dict?)
    ensures r.Ok? && Arg(kwargs, "roi").Dict? ==> NewRoi(Arg(kwargs, "roi").fields) == Ok(r.value.roi.m)
    ensures r.Ok? && Arg(kwargs, "filter").Dict? ==> NewFilter(Arg(kwargs, "filter").fields) == Ok(r.value.filter.m)
    ensures r.Ok? && Arg(kwargs, "quicklook").Dict? ==> NewQuicklook(Arg(kwargs, "quicklook").fields) == Ok(r.value.quicklook.m)
  {
    match CheckKeywords(kwargs, ChainFields)
    case Some(e) => Err(e)
    case None =>
      var filter :- Coerce(Arg(kwargs, "filter"), NewFilter);
      var roi :- Coerce(Arg(kwargs, "roi"), NewRoi);
      var quicklook :- Coerce(Arg(kwargs, "quicklook"), NewQuicklook);
      var c := Chain(Arg(kwargs, "id"), Arg(kwargs, "product"), Arg(kwargs, "format"), Arg(kwargs, "name"),
                     Arg(kwargs, "description"), Arg(kwargs, "aggregation"), Arg(kwargs, "projection"),
                     roi, filter, quicklook, Arg(kwargs, "resample_method"), Arg(kwargs, "resample_resolution"),
                     Arg(kwargs, "compression"), Arg(kwargs, "xrit_segments"));
      ScalarFieldsKept(c, kwargs);
      Ok(c)
  }

  /** A chain whose scalar fields were taken from the keywords gives them back field by field. */
  lemma ScalarFieldsKept(c: Chain, kwargs: map<string, Value>)
    requires && c.id == Arg(kwargs, "id") && c.product == Arg(kwargs, "product")
             && c.format == Arg(kwargs, "format") && c.name == Arg(kwargs, "name")
             && c.description == Arg(kwargs, "description")
             && c.aggregation == Arg(kwargs, "aggregation") && c.projection == Arg(kwargs, "projection")
             && c.resampleMethod == Arg(kwargs, "resample_method")
             && c.resampleResolution == Arg(kwargs, "resample_resolution")
             && c.compression == Arg(kwargs, "compression") && c.xritSegments == Arg(kwargs, "xrit_segments")
    ensures forall k :: k in ChainFields && k !in {"roi", "filter", "quicklook"} ==> ChainFieldValue(c, k) == Arg(kwargs, k)
  {
  }

  /**
   `Quicklook(**kwargs, filter=f)` with a `Filter` already built: a `Filter`
   is not a `dict`, so `__post_init__` keeps it; `filter` given twice is the
   call's `TypeError`.
   */
  function NewQuicklookWithFilter(kwargs: map<string, Value>, f: Filter): (r: Result<Quicklook>)
    ensures "filter" in kwargs ==> r == Err(DuplicateKeyword("filter"))
    ensures r.Ok? <==> "filter" !in kwargs && kwargs.Keys <= QuicklookFields
    ensures "filter" !in kwargs && !(kwargs.Keys <= QuicklookFields) ==> r.Err? && r.error.UnexpectedKeyword?
    ensures r.Ok? ==> r.value.filter == Model(f)
    ensures r.Ok? ==> forall k :: k in QuicklookFields && k != "filter" ==> QuicklookFieldValue(r.value, k) == Arg(kwargs, k)
  {
    if "filter" in kwargs then Err(DuplicateKeyword("filter"))
    else
      var q :- NewQuicklook(kwargs);
      Ok(q.(filter := Model(f)))
  }

  /** The keyword `name` is passed twice: in `kwargs` and as a record. */
  predicate GivenTwice<T>(kwargs: map<string, Value>, name: string, record: Option<T>) {
    record.Some? && name in kwargs
  }

  /**
   `Chain(**kwargs, filter=f, roi=roi, quicklook=q)`, passing only the records
   that are `Some`. A name given both ways is the call's `TypeError`, checked
   in the order filter, roi, quicklook; a record is not a `Mapping`, so
   `__post_init__` keeps it, and everything else is as for `Chain(**kwargs)`.
   */
  function NewChainWithRecords(kwargs: map<string, Value>, filter: Option<Filter>, roi: Option<RegionOfInterest>,
                               quicklook: Option<Quicklook>): (r: Result<Chain>)
    ensures GivenTwice(kwargs, "filter", filter) ==> r == Err(DuplicateKeyword("filter"))
    ensures !GivenTwice(kwargs, "filter", filter) && GivenTwice(kwargs, "roi", roi) ==> r == Err(DuplicateKeyword("roi"))
    ensures r.Ok? <==> && !GivenTwice(kwargs, "filter", filter) && !GivenTwice(kwargs, "roi", roi) && !GivenTwice(kwargs, "quicklook", quicklook)
                       && kwargs.Keys <= ChainFields
                       && Builds(Arg(kwargs, "filter"), NewFilter)
                       && Builds(Arg(kwargs, "roi"), NewRoi)
                       && Builds(Arg(kwargs, "quicklook"), NewQuicklook)
    ensures r.Ok? && filter.Some? ==> r.value.filter == Model(filter.value)
    ensures r.Ok? && roi.Some? ==> r.value.roi == Model(roi.value)
    ensures r.Ok? && quicklook.Some? ==> r.value.quicklook == Model(quicklook.value)
    ensures r.Ok? ==> forall k :: k in ChainFields && k !in {"roi", "filter", "quicklook"} ==> ChainFieldValue(r.value, k) == Arg(kwargs, k)
    ensures filter.None? && roi.None? && quicklook.None? ==> r == NewChain(kwargs)
  {
    if GivenTwice(kwargs, "filter", filter) then Err(DuplicateKeyword("filter"))
    else if GivenTwice(kwargs, "roi", roi) then Err(DuplicateKeyword("roi"))
    else if GivenTwice(kwargs, "quicklook", quicklook) then Err(DuplicateKeyword("quicklook"))
    else
      var c :- NewChain(kwargs);
      var c' := c.(filter := if filter.Some? then Model(filter.value) else c.filter,
                   roi := if roi.Some? then Model(roi.value) else c.roi,
                   quicklook := if quicklook.Some? then Model(quicklook.value) else c.quicklook);
      ScalarFieldsKept(c', kwargs);
      Ok(c')
  }

  /** `Chain()` with no keywords is the all-default chain. */
  lemma NoKeywordsIsDefault()
    ensures NewChain(map[]) == Ok(DefaultChain)
  {
  }

  // ---------------------------------------------------------------------
  // `asdict` and construction undo each other

  /** A filter rebuilt from its `asdict` is the same filter: dropped fields come back as `None`. */
  lemma FilterRoundTrip(f: Filter)
    ensures NewFilter(FilterAsDict(f)) == Ok(f)
  {
    var d := FilterAsDict(f);
    var r := NewFilter(d);
    forall k | k in FilterFields
      ensures FilterFieldValue(r.value, k) == FilterFieldValue(f, k)
    {
    }
    assert FilterFieldValue(r.value, "id") == f.id;
    assert FilterFieldValue(r.value, "bands") == f.bands;
    assert FilterFieldValue(r.value, "name") == f.name;
    assert FilterFieldValue(r.value, "product") == f.product;
  }

  /** A region of interest rebuilt from its `asdict` is the same region. */
  lemma RoiRoundTrip(roi: RegionOfInterest)
    ensures NewRoi(RoiAsDict(roi)) == Ok(roi)
  {
    var d := RoiAsDict(roi);
    assert Arg(d, "id") == roi.id && Arg(d, "name") == roi.name;
    assert Arg(d, "NSWE") == roi.nswe && Arg(d, "description") == roi.description;
  }

  /** A built quicklook rebuilt from its `asdict` is the same quicklook, its filter included. */
  lemma QuicklookRoundTrip(q: Quicklook)
    requires Built(q.filter)
    ensures NewQuicklook(QuicklookAsDict(q)) == Ok(q)
  {
    var d := QuicklookAsDict(q);
    if q.filter.Model? {
      FilterRoundTrip(q.filter.m);
    }
    var r := NewQuicklook(d);
    forall k | k in QuicklookFields && k != "filter"
      ensures QuicklookFieldValue(r.value, k) == QuicklookFieldValue(q, k)
    {
    }
    assert r.value.filter == q.filter;
    assert QuicklookFieldValue(r.value, "name") == q.name;
    assert QuicklookFieldValue(r.value, "resample_method") == q.resampleMethod;
    assert QuicklookFieldValue(r.value, "stretch_method") == q.stretchMethod;
    assert QuicklookFieldValue(r.value, "format") == q.format;
    assert QuicklookFieldValue(r.value, "nodatacolor") == q.nodatacolor;
  }

  /** A dictionary without `None` values gives back, keyword by keyword, the field values it was filtered from. */
  lemma ArgOfFiltered(m: map<string, Value>, k: string)
    requires k in m
    ensures Arg(NoneFilter(m), k) == m[k]
  {
  }

  /** A built slot comes back from the value `asdict` gives it, when its record does. */
  lemma SlotRoundTrip<T>(s: Slot<T>, asDict: T -> map<string, Value>, build: map<string, Value> -> Result<T>)
    requires Built(s)
    requires s.Model? ==> build(asDict(s.m)) == Ok(s.m)
    ensures Coerce(SlotValue(s, asDict), build) == Ok(s)
  {
  }

  /** Each keyword of a chain's `asdict` gives back that field of the chain, `None` for a dropped one. */
  lemma ChainArgs(c: Chain)
    ensures var d := ChainAsDict(c);
            && Arg(d, "id") == c.id && Arg(d, "product") == c.product && Arg(d, "format") == c.format
            && Arg(d, "name") == c.name && Arg(d, "description") == c.description
            && Arg(d, "aggregation") == c.aggregation && Arg(d, "projection") == c.projection
            && Arg(d, "resample_method") == c.resampleMethod && Arg(d, "resample_resolution") == c.resampleResolution
            && Arg(d, "compression") == c.compression && Arg(d, "xrit_segments") == c.xritSegments
            && Arg(d, "roi") == SlotValue(c.roi, RoiAsDict)
            && Arg(d, "filter") == SlotValue(c.filter, FilterAsDict)
            && Arg(d, "quicklook") == SlotValue(c.quicklook, QuicklookAsDict)
  {
    var fields := map k | k in ChainFields :: ChainFieldValue(c, k);
    var d := ChainAsDict(c);
    assert d == NoneFilter(fields);
    forall k | k in ChainFields
      ensures Arg(d, k) == ChainFieldValue(c, k)
    {
      ArgOfFiltered(fields, k);
    }
  }

  /**
   Every chain the constructor can produce is rebuilt from its `asdict`
   unchanged: `Chain(**c.asdict()) == c`.
   */
  lemma ChainRoundTrip(c: Chain)
    requires ChainBuilt(c)
    ensures NewChain(ChainAsDict(c)) == Ok(c)
  {
    var d := ChainAsDict(c);
    ChainArgs(c);
    ChainSlotsRoundTrip(c);
    assert CheckKeywords(d, ChainFields) == None;
  }

  /** The three sub-record slots of a built chain come back from their `asdict` values. */
  lemma ChainSlotsRoundTrip(c: Chain)
    requires ChainBuilt(c)
    ensures Coerce(SlotValue(c.roi, RoiAsDict), NewRoi) == Ok(c.roi)
    ensures Coerce(SlotValue(c.filter, FilterAsDict), NewFilter) == Ok(c.filter)
    ensures Coerce(SlotValue(c.quicklook, QuicklookAsDict), NewQuicklook) == Ok(c.quicklook)
  {
    if c.roi.Model? { RoiRoundTrip(c.roi.m); }
    if c.filter.Model? { FilterRoundTrip(c.filter.m); }
    if c.quicklook.Model? { QuicklookRoundTrip(c.quicklook.m); }
    SlotRoundTrip(c.roi, RoiAsDict, NewRoi);
    SlotRoundTrip(c.filter, FilterAsDict, NewFilter);
    SlotRoundTrip(c.quicklook, QuicklookAsDict, NewQuicklook);
  }

  /** Construction and `asdict` agree from the other side: a built chain's dictionary builds it again. */
  lemma NewChainThenAsDict(kwargs: map<string, Value>)
    requires NewChain(kwargs).Ok?
    ensures NewChain(ChainAsDict(NewChain(kwargs).value)) == NewChain(kwargs)
  {
    ChainRoundTrip(NewChain(kwargs).value);
  }

  /** Passing a `Filter` as `filter`, or its `asdict`, builds the same quicklook. */
  lemma QuicklookFilterOrItsDict(kwargs: map<string, Value>, f: Filter)
    requires "filter" !in kwargs
    ensures NewQuicklookWithFilter(kwargs, f) == NewQuicklook(kwargs["filter" := Dict(FilterAsDict(f))])
  {
    var k2 := kwargs["filter" := Dict(FilterAsDict(f))];
    assert k2.Keys - QuicklookFields == kwargs.Keys - QuicklookFields;
    FilterRoundTrip(f);
    if kwargs.Keys <= QuicklookFields {
      assert forall k :: k != "filter" ==> Arg(k2, k) == Arg(kwargs, k);
    }
  }

  /** Keywords with the same unexpected names fail the same way. */
  lemma CheckKeywordsSameExtra(a: map<string, Value>, b: map<string, Value>, fields: set<string>)
    requires a.Keys - fields == b.Keys - fields
    ensures CheckKeywords(a, fields) == CheckKeywords(b, fields)
  {
    if !(a.Keys <= fields) {
      var k :| k in a.Keys && k !in fields;
      assert k in b.Keys - fields;
    }
    if !(b.Keys <= fields) {
      var k :| k in b.Keys && k !in fields;
      assert k in a.Keys - fields;
    }
  }

  /** The chain holding the keyword values in its plain fields and the given slots. */
  function ChainOf(k: map<string, Value>, roi: Slot<RegionOfInterest>, filter: Slot<Filter>, quicklook: Slot<Quicklook>): Chain {
    Chain(Arg(k, "id"), Arg(k, "product"), Arg(k, "format"), Arg(k, "name"),
          Arg(k, "description"), Arg(k, "aggregation"), Arg(k, "projection"),
          roi, filter, quicklook, Arg(k, "resample_method"), Arg(k, "resample_resolution"),
          Arg(k, "compression"), Arg(k, "xrit_segments"))
  }

  /** The chain built from valid keywords whose three slots coerce to the given slots. */
  lemma NewChainSlots(k: map<string, Value>, filter: Slot<Filter>, roi: Slot<RegionOfInterest>, quicklook: Slot<Quicklook>)
    requires k.Keys <= ChainFields
    requires Coerce(Arg(k, "filter"), NewFilter) == Ok(filter)
    requires Coerce(Arg(k, "roi"), NewRoi) == Ok(roi)
    requires Coerce(Arg(k, "quicklook"), NewQuicklook) == Ok(quicklook)
    ensures NewChain(k) == Ok(ChainOf(k, roi, filter, quicklook))
  {
    assert CheckKeywords(k, ChainFields) == None;
  }

  /** The `asdict` of a record given for a slot is converted back into that record. */
  lemma CoerceAsDicts(f: Filter, roi: RegionOfInterest, q: Quicklook)
    requires Built(q.filter)
    ensures Coerce(Dict(FilterAsDict(f)), NewFilter) == Ok(Model(f))
    ensures Coerce(Dict(RoiAsDict(roi)), NewRoi) == Ok(Model(roi))
    ensures Coerce(Dict(QuicklookAsDict(q)), NewQuicklook) == Ok(Model(q))
  {
    FilterRoundTrip(f);
    RoiRoundTrip(roi);
    QuicklookRoundTrip(q);
  }

  /** The keywords of the three slots play no part in the chain's plain fields. */
  lemma ChainOfIgnoresSlotKeywords(k: map<string, Value>, vf: Value, vr: Value, vq: Value,
                                   roi: Slot<RegionOfInterest>, filter: Slot<Filter>, quicklook: Slot<Quicklook>)
    ensures ChainOf(k["filter" := vf]["roi" := vr]["quicklook" := vq], roi, filter, quicklook) == ChainOf(k, roi, filter, quicklook)
  {
  }

  /** With valid keywords, the `asdict`s of three records build the keyword chain holding those records. */
  lemma NewChainOfRecordDicts(kwargs: map<string, Value>, k2: map<string, Value>, f: Filter, roi: RegionOfInterest, q: Quicklook)
    requires kwargs.Keys <= ChainFields && "filter" !in kwargs && "roi" !in kwargs && "quicklook" !in kwargs
    requires Built(q.filter)
    requires k2 == kwargs["filter" := Dict(FilterAsDict(f))]["roi" := Dict(RoiAsDict(roi))]["quicklook" := Dict(QuicklookAsDict(q))]
    ensures NewChain(k2) == Ok(ChainOf(kwargs, Model(roi), Model(f), Model(q)))
  {
    CoerceAsDicts(f, roi, q);
    assert Arg(k2, "filter") == Dict(FilterAsDict(f));
    assert Arg(k2, "roi") == Dict(RoiAsDict(roi));
    assert Arg(k2, "quicklook") == Dict(QuicklookAsDict(q));
    assert k2.Keys <= ChainFields;
    NewChainSlots(k2, Model(f), Model(roi), Model(q));
    ChainOfIgnoresSlotKeywords(kwargs, Dict(FilterAsDict(f)), Dict(RoiAsDict(roi)), Dict(QuicklookAsDict(q)), Model(roi), Model(f), Model(q));
  }

  /** Passing the three records, or their `asdict`s, builds the same chain. */
  lemma ChainRecordsOrTheirDicts(kwargs: map<string, Value>, f: Filter, roi: RegionOfInterest, q: Quicklook)
    requires "filter" !in kwargs && "roi" !in kwargs && "quicklook" !in kwargs
    requires Built(q.filter)
    ensures NewChainWithRecords(kwargs, Some(f), Some(roi), Some(q))
         == NewChain(kwargs["filter" := Dict(FilterAsDict(f))]["roi" := Dict(RoiAsDict(roi))]["quicklook" := Dict(QuicklookAsDict(q))])
  {
    var k2 := kwargs["filter" := Dict(FilterAsDict(f))]["roi" := Dict(RoiAsDict(roi))]["quicklook" := Dict(QuicklookAsDict(q))];
    assert k2.Keys - ChainFields == kwargs.Keys - ChainFields;
    CheckKeywordsSameExtra(k2, kwargs, ChainFields);
    if kwargs.Keys <= ChainFields {
      var c := ChainOf(kwargs, Model(roi), Model(f), Model(q));
      assert NewChainWithRecords(kwargs, Some(f), Some(roi), Some(q)) == Ok(c) by {
        NewChainSlots(kwargs, Plain(Null), Plain(Null), Plain(Null));
      }
      NewChainOfRecordDicts(kwargs, k2, f, roi, q);
    }
  }

  // ---------------------------------------------------------------------
  // `Chain.b64encode`

  /**
   `Chain.b64encode`: base64 of the UTF-8 bytes of the YAML dump of `asdict`.
   The YAML dumper and the UTF-8 encoder are parameters.
   */
  function B64Encode(c: Chain, yamlDump: Value -> string, utf8: string -> seq<Base64.byte>): (s: string)
    ensures |s| % 4 == 0
    ensures Base64.Decode(s) == Some(utf8(yamlDump(Dict(ChainAsDict(c)))))
  {
    var bytes := utf8(yamlDump(Dict(ChainAsDict(c))));
    Base64.DecodeEncode(bytes);
    Base64.Encode(bytes)
  }

  /**
   Decoding the text and loading the YAML gives `asdict` back, for any YAML
   and UTF-8 codecs whose decoders undo their encoders.
   */
  lemma B64EncodeRoundTrip(c: Chain, yamlDump: Value -> string, yamlLoad: string -> Value,
                           utf8: string -> seq<Base64.byte>, utf8Decode: seq<Base64.byte> -> string)
    requires IsCodec(yamlDump, yamlLoad) && IsCodec(utf8, utf8Decode)
    ensures var bytes := Base64.Decode(B64Encode(c, yamlDump, utf8));
            bytes.Some? && yamlLoad(utf8Decode(bytes.value)) == Dict(ChainAsDict(c))
  {
    Base64.DecodeEncode(utf8(yamlDump(Dict(ChainAsDict(c)))));
  }

  /** The default chain encodes to `e30K`, the base64 of the YAML text `{}` and a newline. */
  lemma DefaultChainEncoding(yamlDump: Value -> string, utf8: string -> seq<Base64.byte>)
    requires yamlDump(Dict(map[])) == "{}\n"
    requires utf8("{}\n") == [123, 125, 10]
    ensures B64Encode(DefaultChain, yamlDump, utf8) == "e30K"
  {
    DefaultChainIsEmpty();
    EncodeBraces([123, 125, 10]);
  }

  lemma EncodeBraces(bs: seq<Base64.byte>)
    requires bs == [123, 125, 10]
    ensures Base64.Encode(bs) == "e30K"
  {
    assert Base64.Encode(bs) == Base64.EncodeBlock(123, 125, 10) + Base64.Encode([]);
  }
}
