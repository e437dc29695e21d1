/**
 The endpoint table (`eocanvas.config.URLs`) on an already parsed URL file:
 the token URL, the base URL, and a mapping from endpoint names to path
 templates.
 */
module Urls {
  import opened Wrappers
  import opened Errors
  import opened Json
  import opened Strings
  import opened StrFormat

  datatype Urls = Urls(tokenUrl: Value, baseUrl: Value, endpoints: Value)

  /** `URLs.__init__` after loading: the three keys are read in order and the first one missing is reported. */
  function NewUrls(data: map<string, Value>): (r: Result<Urls>)
    ensures r.Ok? <==> "token_url" in data && "base_url" in data && "endpoints" in data
    ensures r.Ok? ==> r.value == Urls(data["token_url"], data["base_url"], data["endpoints"])
    ensures "token_url" !in data ==> r == Err(MalformedUrlFile("token_url"))
    ensures "token_url" in data && "base_url" !in data ==> r == Err(MalformedUrlFile("base_url"))
    ensures "token_url" in data && "base_url" in data && "endpoints" !in data ==> r == Err(MalformedUrlFile("endpoints"))
  {
    if "token_url" !in data then Err(MalformedUrlFile("token_url"))
    else if "base_url" !in data then Err(MalformedUrlFile("base_url"))
    else if "endpoints" !in data then Err(MalformedUrlFile("endpoints"))
    else Ok(Urls(data["token_url"], data["base_url"], data["endpoints"]))
  }

  /** The template registered under `name`, if the table has a non-null entry for it. */
  predicate HasEndpoint(u: Urls, name: string) {
    u.endpoints.Dict? && name in u.endpoints.fields && u.endpoints.fields[name] != Null
  }

  /**
   `URLs.get`: the base URL followed by the endpoint's template with its
   placeholders filled from `kwargs`. A missing or null entry is refused;
   errors from the template come before the concatenation's type check.
   */
  function Get(u: Urls, name: string, kwargs: map<string, string>): (r: Result<string>)
    ensures u.endpoints.Dict? && !HasEndpoint(u, name) ==> r == Err(EndpointNotFound(name))
    ensures r.Ok? <==>
              && HasEndpoint(u, name)
              && u.endpoints.fields[name].Str?
              && Format(u.endpoints.fields[name].s, kwargs).Ok?
              && u.baseUrl.Str?
    ensures r.Ok? ==>
              && StartsWith(r.value, u.baseUrl.s)
              && r.value[|u.baseUrl.s|..] == Format(u.endpoints.fields[name].s, kwargs).value
  {
    if !u.endpoints.Dict? then Err(MissingAttribute("get"))
    else if !HasEndpoint(u, name) then Err(EndpointNotFound(name))
    else
      match u.endpoints.fields[name]
      case Str(template) =>
        (match Format(template, kwargs)
         case Err(e) => Err(e)
         case Ok(path) =>
           if u.baseUrl.Str? then Ok(u.baseUrl.s + path) else Err(NotAString("base_url")))
      case _ => Err(MissingAttribute("format"))
  }

  /** A template without placeholders is appended to the base URL as it is. */
  lemma GetWithoutPlaceholders(u: Urls, name: string, kwargs: map<string, string>)
    requires HasEndpoint(u, name) && u.endpoints.fields[name].Str? && u.baseUrl.Str?
    requires BraceFree(u.endpoints.fields[name].s)
    ensures Get(u, name, kwargs) == Ok(u.baseUrl.s + u.endpoints.fields[name].s)
  {
    BraceFreeUnchanged(u.endpoints.fields[name].s, kwargs);
  }

  /** The table of the configuration test. */
  predicate IsExampleTable(u: Urls) {
    && u.baseUrl == Str("someotherurl")
    && u.endpoints == Dict(map["process_list" := Str("/processes"), "process_detail" := Str("/processes/{process_id}")])
  }

  /** `process_id` is a keyword field: its lookup succeeds exactly when a value is given. */
  lemma KeywordField(name: string, kwargs: map<string, string>)
    requires name == "process_id"
    ensures name in kwargs ==> Lookup(name, kwargs) == Ok(kwargs[name])
    ensures name !in kwargs ==> Lookup(name, kwargs) == Err(MissingPlaceholder(name))
  {
    assert !IsDigit(name[0]);
    assert SimpleName(name);
  }

  /** The detail template substitutes `process_id` after a literal prefix. */
  lemma DetailTemplate(template: string, prefix: string, name: string, kwargs: map<string, string>)
    requires prefix == "/processes/" && name == "process_id"
    requires template == prefix + ("{" + name + "}" + "")
    ensures name in kwargs ==> Format(template, kwargs) == Ok(prefix + kwargs[name])
    ensures name !in kwargs ==> Format(template, kwargs) == Err(MissingPlaceholder(name))
  {
    BraceFreePrefix(prefix, "{" + name + "}" + "", kwargs);
    FormatField(name, "", kwargs);
    KeywordField(name, kwargs);
    if name in kwargs {
      var v := kwargs[name];
      assert v + [] == v;
    }
  }

  lemma DetailTemplateText(template: string, prefix: string, name: string)
    requires prefix == "/processes/" && name == "process_id" && template == "/processes/{process_id}"
    ensures template == prefix + ("{" + name + "}" + "")
  {
  }

  /** `get("process_list")` on the test table. */
  lemma ConfigurationListExample(u: Urls)
    requires IsExampleTable(u)
    ensures Get(u, "process_list", map[]) == Ok("someotherurl/processes")
  {
    var t := u.endpoints.fields["process_list"].s;
    var b := u.baseUrl.s;
    assert t == "/processes" && b == "someotherurl";
    assert BraceFree(t);
    GetWithoutPlaceholders(u, "process_list", map[]);
    assert Get(u, "process_list", map[]) == Ok(b + t);
    ListUrlText(b, t);
  }

  lemma ListUrlText(b: string, t: string)
    requires t == "/processes" && b == "someotherurl"
    ensures b + t == "someotherurl/processes"
  {
  }

  /** A string template that formats, under a string base URL, gives their concatenation. */
  lemma GetConcatenates(u: Urls, name: string, kwargs: map<string, string>)
    requires HasEndpoint(u, name) && u.endpoints.fields[name].Str? && u.baseUrl.Str?
    requires Format(u.endpoints.fields[name].s, kwargs).Ok?
    ensures Get(u, name, kwargs) == Ok(u.baseUrl.s + Format(u.endpoints.fields[name].s, kwargs).value)
  {
  }

  lemma DetailUrlText(b: string, p: string, v: string)
    requires b == "someotherurl" && p == "/processes/" && v == "5"
    ensures b + (p + v) == "someotherurl/processes/5"
  {
  }

  /** `get("process_detail", process_id="5")` on the test table. */
  lemma ConfigurationDetailExample(u: Urls)
    requires IsExampleTable(u)
    ensures Get(u, "process_detail", map["process_id" := "5"]) == Ok("someotherurl/processes/5")
  {
    var e := u.endpoints.fields;
    var kwargs := map["process_id" := "5"];
    assert e["process_detail"] == Str("/processes/{process_id}");
    DetailTemplateText(e["process_detail"].s, "/processes/", "process_id");
    DetailTemplate(e["process_detail"].s, "/processes/", "process_id", kwargs);
    GetConcatenates(u, "process_detail", kwargs);
    DetailUrlText(u.baseUrl.s, "/processes/", kwargs["process_id"]);
  }

  /** A missing placeholder value and an unknown endpoint are refused. */
  lemma ConfigurationErrors(u: Urls)
    requires IsExampleTable(u)
    ensures Get(u, "process_detail", map[]) == Err(MissingPlaceholder("process_id"))
    ensures Get(u, "job_list", map[]) == Err(EndpointNotFound("job_list"))
  {
    var e := u.endpoints.fields;
    assert e["process_detail"] == Str("/processes/{process_id}");
    assert "job_list" !in e;
    DetailTemplateText(e["process_detail"].s, "/processes/", "process_id");
    DetailTemplate(e["process_detail"].s, "/processes/", "process_id", map[]);
  }
}
