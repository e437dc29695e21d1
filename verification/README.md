# eocanvas in Dafny

A model of the core of `eocanvas`. This is the Python client for the WEkEO
Serverless Functions API: it submits SNAP graphs, Data Tailor chains and
the ShearWater demo as processes, polls the resulting jobs and downloads
their results. The model proves properties of that behaviour.

It covers:

- the typed request/response layer of `eocanvas/api.py`:
  - wire-to-field remapping and log timestamps;
  - jobs and job results and where a result is downloaded to;
  - keys and key configurations;
  - process inputs and the submission envelope;
  - `JobRunner.run`, with its polling loop and its download loop;
- the OAuth token life cycle and the bearer header (`eocanvas/auth.py`), including the status handling of `eocanvas/http.py`;
- the endpoint table and its `str.format` templates (`eocanvas/config.py`);
- the Data Tailor chain records, their `asdict` and their base64 YAML form (`eocanvas/datatailor/chain.py`);
- SNAP operators, built from the operator catalogue (`eocanvas/snap/operator.py`, `eocanvas/snap/operatorparams.py`);
- `Graph.add_node` for SNAP graphs (`eocanvas/snap/graph.py`);
- the three concrete processes (`eocanvas/processes.py`), including the date check that `datetime.strptime(…, "%Y-%m-%d")` performs.

Some functions and values are parameters of the model rather than code in it:

- the service;
- the clock;
- JSON and YAML dumping;
- UTF-8 encoding;
- XML serialisation;
- the RSA seal of key configurations;
- the operator catalogue.

Where a proof needs a serialiser to be invertible, it assumes only `Json.IsCodec` of that parameter. Base64, by contrast, is modelled concretely (section 4 of RFC 4648), and its round trip is proved.

Python exceptions are the constructors of `Errors.Error`. Each raise site gets one constructor, and `Errors.ExceptionClass` names the Python class the constructor stands for. Every operation that can raise returns a `Result`.

Modules, one per file:

| module | file | what it models |
|---|---|---|
| `Wrappers`, `Errors`, `Json` | `wrappers.dfy` | shared types |
| `Strings` | `strings.dfy` | string helpers |
| `Base64` | `base64.dfy` | base64 |
| `Api` | `api.dfy` | `api.py` data classes |
| `JobRunner` | `jobrunner.dfy` | `JobRunner.run` |
| `Auth` | `auth.dfy` | `auth.py` |
| `StrFormat` | `strformat.dfy` | `str.format` |
| `Urls` | `urls.dfy` | `config.py` |
| `DataTailor` | `datatailor.dfy` | `datatailor/chain.py` |
| `SnapOperator` | `operator.dfy` | `snap/operator.py` and `snap/operatorparams.py` |
| `SnapGraph` | `graph.dfy` | `snap/graph.py` |
| `Strptime` | `dates.dfy` | `strptime` date check |
| `Processes` | `processes.dfy` | `processes.py` |

## Model

| member | source | states |
|---|---|---|
| Api.TransformDataKeys | eocanvas/api.py:21-23 | the remapped dictionary has exactly the renamed input keys, no more and no fewer |
| Api.TransformDataLastWins | eocanvas/api.py:21-23 | when several keys rename to the same key, the value of the last such entry in insertion order is kept |
| Api.TransformData | eocanvas/api.py:21-23 | no more keys than input entries, and the last entry's renamed key holds the last entry's value |
| Api.FilterForDataclass | eocanvas/api.py:26-29 | the keys kept are exactly the input keys that are dataclass fields, with their values unchanged |
| Api.WireJobIdBecomesField | eocanvas/api.py:205-209 | the server's `jobID` becomes the `job_id` field with its value; `jobID` and `processID` do not reach the constructor |
| Api.TruncateTimestampAsWritten | eocanvas/api.py:216-221 | the slicing keeps the first 26 characters and the last 6: a timestamp of at least 26 characters yields 32 characters, its first 26 and its last 6, one of 6 to 26 characters is followed by a second copy of its last six, and one shorter than 6 is doubled |
| Api.TruncateDropsNanoDigits | eocanvas/api.py:218-219 | on a 35-character nanosecond timestamp with a `+hh:mm` offset, exactly the three sub-microsecond digits are removed |
| Api.TruncateCorruptsShortFraction | eocanvas/api.py:219 | two examples: a timestamp with no fraction, and one with a one-digit fraction, each come out with a duplicated offset |
| Api.TruncateTimestampFraction | eocanvas/api.py:218-219 | the intended cut keeps everything up to the dot, keeps the first `min(k, 6)` fraction digits, drops the other digits and keeps whatever followed the fraction |
| Api.TruncateKeepsMicroseconds | eocanvas/api.py:218-219 | a timestamp with at most six fraction digits is left unchanged |
| Api.TruncateAgreesOnNanoseconds | eocanvas/api.py:218-219 | on the nanosecond timestamps the server sends, the intended cut and the slicing as written agree |
| Api.BuildLogEntry | eocanvas/api.py:218 | the entry as the comment at this line intends: the message is kept, only the fraction of seconds is shortened, so a timestamp without a dot is kept as is and none grows |
| Api.BuildLogEntryAsWritten | eocanvas/api.py:216-221 | as written the message is kept and the timestamp sliced: one of at least 26 characters becomes its first 26 and last 6 characters, one of 6 to 26 characters gets its last six repeated |
| Api.BuildLogEntryAgrees | eocanvas/api.py:216-221 | on the nanosecond timestamps the server sends, the intended entry and the entry as written are the same |
| Api.Refresh | eocanvas/api.py:271-277 | the status and the created, updated and finished times come from the fetched job; the id and the start time stay |
| Api.RefreshIdempotent | eocanvas/api.py:271-277 | refreshing twice from the same record is the same as refreshing once |
| Api.NewResult | eocanvas/api.py:292-297 | `rel` defaults to `result`; `href` and `title` are kept |
| Api.FileName | eocanvas/api.py:180 | the last `/`-free component of the title, and a suffix of it |
| Api.JoinPath | eocanvas/api.py:181 | the path starts with the directory and ends with the name, with at most one `/` added between them; for a name without `/` its file name is that name |
| Api.DownloadResult | eocanvas/api.py:299-307 | a download happens exactly for `rel == "result"`, to a path under the directory (`.` by default) whose file name is the title's; `enclosure` raises NotDownloadable; any other `rel` raises UnknownResultType |
| Api.NewS3Config | eocanvas/api.py:404-406 | it is accepted exactly when the endpoint starts with `https://`; otherwise it raises ValueError |
| Api.NewWebDavConfig | eocanvas/api.py:415-417 | it is accepted exactly when the endpoint starts with `https://`; otherwise it raises ValueError |
| Api.BareSchemeAccepted | eocanvas/api.py:404-417 | the bare `https://` passes the endpoint check; `http://x` does not |
| Api.KeyConfigAsDict | eocanvas/api.py:387-388 | the keys are exactly the fields of the configuration kind, `api` excluded, each with its value |
| Api.NewKey | eocanvas/api.py:333-341 | a configuration forces the type to S3 or WEBDAV; without one, a type other than those raises ValueError; nothing else changes |
| Api.ConflictingTypeIsOverwritten | eocanvas/api.py:334-341 | a declared type that disagrees with the configuration is silently replaced, not refused |
| Api.KeyAsDict | eocanvas/api.py:346-356 | one entry named after the key: its type; `expire` as the seconds or 3600 when they are 0 or absent; `public`; the description or else the name; the sealed configuration. Without a configuration it fails |
| Api.CreateKey | eocanvas/api.py:358-362 | a key without a configuration raises ValueError before any request; otherwise the posted body is `asdict` |
| Api.InputAsDict | eocanvas/api.py:230-238 | `{key: url}`, plus `schema: keystore://<name>` when a key store is given, by name or by Key |
| Api.ConfigOptionAsDict | eocanvas/api.py:246-247 | exactly the keys `uncompress` and `subPath`, carrying the option's values |
| Api.ConfigAsDict | eocanvas/api.py:255-256 | one entry, named after the key, holding the option's dictionary |
| Api.PrepareInputs | eocanvas/api.py:446-461 | an envelope with empty inputs; the outputs are empty exactly when there is no output, and otherwise hold one keystore schema for the output |
| Api.OutputByKeyOrName | eocanvas/api.py:453-459 | giving the output as a Key or as its name yields the same envelope |
| JobRunner.BackoffIncreasing | eocanvas/api.py:487-488 | the sleeps grow strictly from round to round |
| JobRunner.BackoffFirstRounds | eocanvas/api.py:477-488 | the first sleeps are 10, 11 and 12.1 seconds |
| JobRunner.RefreshAll | eocanvas/api.py:489-490 | after refreshes the job keeps its id and its start time, and shows the status of the last record fetched |
| JobRunner.PollRounds | eocanvas/api.py:479-490 | the polling loop waits only through `accepted` and `running`. It finishes exactly on `successful`, raises JobFailed on `failed` and fails its assertion on any other status. The modelled history runs out only while it is still waiting |
| JobRunner.Poll | eocanvas/api.py:477-490 | the loop's ending and round count are those of the reference `PollFrom`; the k-th sleep is `10 * 1.1^k`; the job ends refreshed from exactly the records consumed |
| JobRunner.DownloadPhaseFinished | eocanvas/api.py:492-496 | the download loop completes exactly when every result is a `result` or an `enclosure`; each result is then either downloaded or logged |
| JobRunner.DownloadPhaseStopsAtUnknown | eocanvas/api.py:492-496 | the first result of unknown `rel` ends the run with UnknownResultType, after every result before it was handled |
| JobRunner.DownloadNext | eocanvas/api.py:493-496 | one loop round extends the reference download phase by one result, or reports the error that ends the whole phase |
| JobRunner.DownloadAll | eocanvas/api.py:492-496 | the loop computes the reference download phase: the same ending, the same downloads and the same logged titles |
| JobRunner.Run | eocanvas/api.py:476-496 | it polls exactly the rounds of the polling loop, each round before the last seeing a waiting status and sleeping `Backoff(i)`; a `failed` job raises JobFailed and any other non-waiting status fails the assertion, without downloading; the downloads run only if the job ended `successful` |
| JobRunner.FinishedIsNotCompleted | eocanvas/api.py:279-281 | `completed` is true only for status `completed`, never for the `successful` the runner finishes on; a `completed` job fails the runner's status assertion at once |
| Auth.CredentialPatternMeaning | eocanvas/auth.py:25-26 | a string matches `[^\s]+$` exactly when it is non-empty and has no whitespace apart from one trailing newline |
| Auth.NewCredentials | eocanvas/auth.py:24-32 | the credentials are accepted exactly when both strings are well-formed; otherwise MalformedCredentialsError is raised |
| Auth.CredentialExamples | eocanvas/auth.py:24-32 | `abc`/`123` is accepted as given, and so is a name with one trailing newline |
| Auth.MalformedCredentialExamples | tests/test_auth.py:28-30 | `a a`/`b/b` and an empty name raise MalformedCredentialsError |
| Auth.FreshIsExpired | eocanvas/auth.py:71-85 | a new token is expired at any time |
| Auth.Invalidate | eocanvas/auth.py:100-101 | both tokens are kept and the token is expired at every time |
| Auth.CheckStatus | eocanvas/http.py:22-55 | no error exactly below 400 or from 600 up; 500, 502, 503 and 504 use up the retries and raise the library's HTTPError; 429 raises QuotaExceeded; every other 4xx/5xx raises requests' HTTPError |
| Auth.ServerErrorRaisesHttpError | tests/test_http.py:35-37 | a request answered with 500 ends in the library's HTTPError |
| Auth.Store | eocanvas/auth.py:134-137 | it stores the access and refresh tokens, with expiry at `now + expires_in` |
| Auth.StoredTokenLifetime | eocanvas/auth.py:83-85 | a stored token is valid exactly up to and including `now + expires_in` |
| Auth.SetToken | eocanvas/auth.py:123-137 | with a refresh token the refresh grant goes first; a 400 or 403 to it, and only that, adds a password grant; the last response is checked and stored |
| Auth.RefusedRefreshFallsBack | eocanvas/auth.py:123-131 | a refresh refused with 403 falls back to the password grant and stores its token |
| Auth.AccessToken | eocanvas/auth.py:87-98 | an unexpired token is returned with no request; an expired one triggers an exchange; a consistent state stays consistent |
| Auth.FirstAccessExchangesOnce | eocanvas/auth.py:87-98 | a fresh token makes exactly one password exchange; the value it caches is served without a request until it expires |
| Auth.InvalidateForcesExchange | eocanvas/auth.py:94-101 | the first access after `invalidate` posts a request |
| Auth.Authorize | eocanvas/auth.py:146-148 | the header `authorization`, however its name was capitalised before, now holds `Bearer <token>`; every other header is unchanged |
| Auth.AuthorizeReplacesHeader | eocanvas/auth.py:146-148 | an `Authorization` header already present is replaced by `authorization`, not kept beside it |
| Auth.Post | eocanvas/http.py:31-55 | the response is returned exactly when its status raises nothing |
| Auth.SetTokenOverHttpNeverFallsBack | eocanvas/auth.py:123-133 | as written, `_set_token` never posts a second request |
| Auth.SetTokenOverHttpAgrees | eocanvas/auth.py:123-137 | apart from a refused refresh, the code as written and the intended branches agree |
| Auth.RefusedRefreshRaisesAsWritten | eocanvas/auth.py:123-133 | a 403 on refresh raises HTTPError as written, where the intended fallback obtains a token |
| StrFormat.Lookup | eocanvas/config.py:48 | a field is filled exactly when it is a keyword name that is given; a numeric field raises IndexError; a missing keyword raises KeyError |
| StrFormat.Format | eocanvas/config.py:48 | formatting fails only with ValueError (unbalanced braces), KeyError (missing keyword), IndexError (positional field) or outside the model; a template without braces is returned unchanged |
| StrFormat.FormatIsParseThenRender | eocanvas/config.py:48 | formatting succeeds exactly when the template parses and every field has a value, and then it equals rendering the parsed pieces |
| StrFormat.ParseUnparse | eocanvas/config.py:48 | parsing the text of a piece sequence gives the pieces back |
| StrFormat.BraceFreeUnchanged | eocanvas/config.py:48 | a template without braces formats to itself |
| StrFormat.BraceFreePrefix | eocanvas/config.py:48 | literal text in front of a template passes through unchanged |
| StrFormat.FormatField | eocanvas/config.py:48 | a field is replaced by its value, or its lookup error ends the formatting |
| Urls.NewUrls | eocanvas/config.py:37-42 | the table is built exactly when all three keys are present; otherwise the first missing key is reported in the order `token_url`, `base_url`, `endpoints` |
| Urls.Get | eocanvas/config.py:44-48 | an unknown endpoint raises ValueError; a known one yields the base URL followed by the formatted template |
| Urls.GetWithoutPlaceholders | eocanvas/config.py:44-48 | a template without braces is appended to the base URL as it is |
| Urls.GetConcatenates | eocanvas/config.py:44-48 | a template that formats gives the base URL followed by the formatted text |
| Urls.DetailTemplate | eocanvas/config.py:48 | `/processes/{process_id}` substitutes the id, or raises KeyError when it is missing |
| Urls.ConfigurationListExample | tests/test_config.py:10-13 | `process_list` gives `someotherurl/processes` |
| Urls.ConfigurationDetailExample | tests/test_config.py:14 | `process_detail` with id 5 gives `someotherurl/processes/5` |
| Urls.ConfigurationErrors | eocanvas/config.py:44-48 | a missing id raises KeyError, and an endpoint not in the table raises ValueError |
| DataTailor.NoneFilter | eocanvas/datatailor/chain.py:21-23 | a key is kept exactly when its value is not None, and kept values are unchanged |
| DataTailor.NoneFilterIdempotent | eocanvas/datatailor/chain.py:21-23 | filtering twice is filtering once |
| DataTailor.CheckKeywords | eocanvas/datatailor/chain.py:97-116 | the keywords are accepted exactly when all of them are fields; otherwise an unexpected one is named |
| DataTailor.FilterAsDict | eocanvas/datatailor/chain.py:29-32 | a field of the filter is a key exactly when its value is not None, and then maps to that value |
| DataTailor.RoiAsDict | eocanvas/datatailor/chain.py:29-32 | a field of the region (`NSWE` included) is a key exactly when its value is not None, and then maps to that value |
| DataTailor.QuicklookAsDict | eocanvas/datatailor/chain.py:29-32 | a field of the quicklook is a key exactly when its value is not None, and then maps to that value; a nested Filter becomes its own filtered dictionary |
| DataTailor.ChainAsDict | eocanvas/datatailor/chain.py:29-32 | a field of the chain is a key exactly when its value is not None, and then maps to that value; sub-records become their own filtered dictionaries, so no None appears at the chain's level nor inside any sub-record (a plain dictionary value such as `compression` is kept as given) |
| DataTailor.DefaultChainIsEmpty | eocanvas/datatailor/chain.py:97-116 | `Chain()` gives the empty dictionary |
| DataTailor.NewFilter | eocanvas/datatailor/chain.py:35-53 | a filter is built exactly when every keyword is a field, and each field holds its keyword or None |
| DataTailor.NewRoi | eocanvas/datatailor/chain.py:56-74 | a region is built exactly when every keyword is a field, and each field holds its keyword or None |
| DataTailor.NewQuicklook | eocanvas/datatailor/chain.py:77-94 | a quicklook is built exactly when every keyword is a field and a dict `filter` builds a Filter; every other field holds its keyword or None; a dict `filter` becomes the Filter built from it, other values are kept |
| DataTailor.Coerce | eocanvas/datatailor/chain.py:119-122 | it succeeds exactly when the value is not a mapping or its record builds; a mapping becomes the sub-record built from it; anything else is kept |
| DataTailor.NewChain | eocanvas/datatailor/chain.py:97-122 | a chain is built exactly when every keyword is a field and each of `filter`, `roi` and `quicklook` given as a mapping builds; unknown keywords raise TypeError; every scalar field holds its keyword or None; the three slots are records exactly when given as mappings, built from them |
| DataTailor.NoKeywordsIsDefault | eocanvas/datatailor/chain.py:97-122 | `Chain()` is the all-None chain |
| DataTailor.FilterRoundTrip | eocanvas/datatailor/chain.py:29-53 | a filter rebuilt from its `asdict` is the same filter |
| DataTailor.RoiRoundTrip | eocanvas/datatailor/chain.py:29-74 | a region rebuilt from its `asdict` is the same region |
| DataTailor.QuicklookRoundTrip | eocanvas/datatailor/chain.py:77-94 | a quicklook whose filter is not an unconverted dict is rebuilt from its `asdict` unchanged |
| DataTailor.ChainRoundTrip | eocanvas/datatailor/chain.py:97-122 | `Chain(**c.asdict()) == c` for every chain whose slots hold no unconverted dict, which is every chain the constructor produces |
| DataTailor.NewQuicklookWithFilter | eocanvas/datatailor/chain.py:88-94 | a `Filter` passed already built is kept as the quicklook's filter; `filter` given twice raises TypeError; the other fields hold their keyword or None |
| DataTailor.NewChainWithRecords | eocanvas/datatailor/chain.py:109-122 | records passed already built are kept in their slots; a slot given twice raises TypeError; without records it is `Chain(**kwargs)` |
| DataTailor.QuicklookFilterOrItsDict | eocanvas/datatailor/chain.py:88-94 | passing a `Filter` or its `asdict` as `filter` builds the same quicklook |
| DataTailor.ChainRecordsOrTheirDicts | eocanvas/datatailor/chain.py:109-122 | passing the three sub-records or their `asdict`s builds the same chain |
| DataTailor.NewChainThenAsDict | eocanvas/datatailor/chain.py:97-122 | a chain built from keywords is built again, identically, from its own `asdict` |
| DataTailor.B64Encode | eocanvas/datatailor/chain.py:129-130 | base64 decoding of the text gives back exactly the UTF-8 bytes of the YAML dump of `asdict`; the text is a multiple of four characters |
| DataTailor.B64EncodeRoundTrip | eocanvas/datatailor/chain.py:129-130 | decoding the base64 and loading the YAML gives back the chain's `asdict` |
| DataTailor.DefaultChainEncoding | eocanvas/datatailor/chain.py:129-130 | the default chain encodes to `e30K` |
| Base64.DecodeEncode | eocanvas/datatailor/chain.py:129-130 | base64 decoding undoes base64 encoding for every byte string |
| SnapOperator.DefaultParams | eocanvas/snap/operatorparams.py:7-17 | an unknown operator raises SnapOperatorNotFound; otherwise every catalogued parameter maps to its default, or to None |
| SnapOperator.Merge | eocanvas/snap/operator.py:15 | the union of the keys; the overriding value wins |
| SnapOperator.NewOperator | eocanvas/snap/operator.py:10-16 | it succeeds exactly when `operator` is not a keyword, the name is catalogued and no parameter is named after the object's own attributes; an unknown operator raises; the parameters are the catalogue defaults overridden by the keywords; every parameter is also an attribute |
| SnapOperator.SetAttr | eocanvas/snap/operator.py:9-16 | assigning an attribute changes that attribute only, and the parameter set stays the same |
| SnapOperator.SetOperatorName | eocanvas/snap/operator.py:14 | renaming the operator sets its name and leaves the parameters and attributes as they were |
| SnapOperator.ToDict | eocanvas/snap/operator.py:30-31 | the current attribute value of every parameter the operator was built with |
| SnapOperator.ToDictAfterNew | eocanvas/snap/operator.py:10-31 | right after construction, `to_dict` is the merged parameter map |
| SnapOperator.ToDictAfterSetAttr | eocanvas/snap/operator.py:30-31 | assigning a parameter shows in `to_dict`; assigning any other attribute does not |
| SnapGraph.FindNode | eocanvas/snap/graph.py:161-164 | the first node with the id, or the node count when there is none |
| SnapGraph.SourceNamesDistinct | eocanvas/snap/graph.py:233-240 | the tags `sourceProduct`, `sourceProduct.1`, … are pairwise distinct |
| SnapGraph.SourceRefs | eocanvas/snap/graph.py:232-242 | there is one element per source in order, each with its `refid`; the i-th tag is `sourceProduct` for the first and `sourceProduct.i` after it, so the tags are distinct |
| SnapGraph.NodeSources | eocanvas/snap/graph.py:232-251 | none, one or a list of sources; a dict raises AttributeError (`iteritems`) |
| SnapGraph.Filtered | eocanvas/snap/graph.py:256-272 | it keeps exactly the listed names that pass the type filter, in their order |
| SnapGraph.ListedNames | eocanvas/snap/graph.py:256-272 | it lists the attributes that pass the type filter, each once, sorted the way `dir()` sorts them |
| SnapGraph.NewParamItem | eocanvas/snap/graph.py:273-310 | it covers each branch for one parameter: a skipped false-y configuration; a descriptor's own XML or a string's parsed XML appended whole; ValueError for anything else; an empty element; text; a nested fragment; IndexError on `""`; TypeError on a descriptor |
| SnapGraph.NewParamItems | eocanvas/snap/graph.py:256-310 | every element belongs to a listed name; no more elements than names; for names without repeats, no two parameter elements share a name |
| SnapGraph.NewParamItemsFailure | eocanvas/snap/graph.py:256-310 | building the parameters succeeds exactly when each parameter does; otherwise it fails with the first parameter's error |
| SnapGraph.NewParamItemsCarryValues | eocanvas/snap/graph.py:273-310 | every parameter of a node that was built has an element carrying its value: a scalar one as text or a nested fragment, a descriptor or configuration that is not skipped as its XML tree |
| SnapGraph.FindParam | eocanvas/snap/graph.py:217 | the first parameter element with the name, or the element count when there is none |
| SnapGraph.UpdateParam | eocanvas/snap/graph.py:186-225 | on an existing node, a configuration parameter changes nothing or raises ValueError. A missing element, None or `""` changes nothing. Text replaces the element's text; `<` raises AttributeError; a descriptor raises TypeError |
| SnapGraph.UpdateParams | eocanvas/snap/graph.py:169-225 | overwriting keeps the number and the identity of the parameter elements |
| SnapGraph.UpdateParamsKeeps | eocanvas/snap/graph.py:169-225 | an element not named by any listed attribute is left exactly as it was |
| SnapGraph.UpdateParamsSetsText | eocanvas/snap/graph.py:216-225 | for listed names without repeats, a plain string attribute sets the text of the first element named after it |
| SnapGraph.AddNode | eocanvas/snap/graph.py:147-314 | on success the graph keeps its version and has the node; the node count grows by one exactly for a new id; a dict source for a new id raises AttributeError; for an existing id it fails exactly when overwriting the parameters does |
| SnapGraph.AddNodeAppends | eocanvas/snap/graph.py:227-314 | a new id appends exactly one node, with its operator, sources and the parameter elements built for the listed attributes; the others are untouched; it fails exactly on a dict source or a failing parameter |
| SnapGraph.AddNodeOverwrites | eocanvas/snap/graph.py:161-225 | an existing id keeps the node count, the node's sources and every other node; it sets the operator and the overwritten parameters, and fails exactly when overwriting them fails |
| SnapGraph.AddNodeOverwriteSetsText | eocanvas/snap/graph.py:216-225 | re-adding a node with a plain string attribute sets the text of that parameter's existing element |
| SnapGraph.AddNodeAfterRename | eocanvas/snap/graph.py:314 | renaming the operator first changes only the operator name written into the node |
| SnapGraph.AddNodeKeepsIdsUnique | eocanvas/snap/graph.py:147-314 | node ids stay unique, and the id is present afterwards |
| SnapGraph.AddNodeTwiceOneNode | eocanvas/snap/graph.py:161-163 | adding the same node twice leaves one node, not two |
| Strptime.ParseDate | eocanvas/processes.py:94 | a match has four year digits, a dash, a month from 1 to 12 and a day from 1 to 31 |
| Strptime.ParseFormatDate | eocanvas/processes.py:91-96 | every valid date, written as `YYYY-MM-DD`, is parsed back as itself and accepted |
| Strptime.AcceptsEpoch | tests/test_shearwater.py:8 | `1970-01-01` is accepted |
| Strptime.RefusesText | tests/test_shearwater.py:14 | `abc` is refused |
| Strptime.RefusesFebruary30 | eocanvas/processes.py:93-96 | a well-formed date the calendar lacks is refused |
| Strptime.RefusesYearZero | eocanvas/processes.py:93-96 | year 0 is refused |
| Processes.NewSnapProcess | eocanvas/processes.py:20-29 | the default id is `snap-function`; single inputs and configs become one-element lists |
| Processes.SnapInputs | eocanvas/processes.py:33-37 | the keys are exactly `snap_graph`, `eo_input` and `eo_config` |
| Processes.SnapInputsRoundTrip | eocanvas/processes.py:33-37 | each field decodes back to the graph, the input dicts and the config dicts |
| Processes.SnapPrepareInputsAsWritten | eocanvas/processes.py:31-41 | as written, the inputs are the SNAP inputs and the outputs are always empty |
| Processes.SnapPrepareInputs | eocanvas/processes.py:31-41 | the SNAP inputs, with the base class's outputs kept |
| Processes.SnapOutputKeyDropped | eocanvas/processes.py:31-41 | an output key changes nothing as written, but does in the corrected envelope |
| Processes.NewDataTailorProcess | eocanvas/processes.py:52-58 | the default id is `dataTailor`; a single input becomes a one-element list |
| Processes.DataTailorInputs | eocanvas/processes.py:62-65 | the keys are exactly `epct_chain` and `epct_input` |
| Processes.DataTailorPrepareInputsAsWritten | eocanvas/processes.py:60-69 | as written, the inputs are the Data Tailor inputs and the outputs are always empty |
| Processes.DataTailorPrepareInputs | eocanvas/processes.py:60-69 | the Data Tailor inputs, with the base class's outputs kept |
| Processes.DataTailorExample | tests/test_process.py:54-66 | the default chain gives `e30K`; without an output both readings agree |
| Processes.DataTailorOutputKeyDropped | tests/test_process.py:69-81 | an output key changes nothing as written, but appears in the corrected envelope |
| Processes.NewShearWaterProcess | eocanvas/processes.py:83-96 | it is built exactly when the area is `Sindian` and both days are dates; otherwise it fails, checking the area, then `start_day`, then `end_day`; the default id is `shearwater-demo` |
| Processes.ShearWaterInputs | eocanvas/processes.py:99-104 | `area`, `startDay` and `endDay` carry the process's values |
| Processes.ShearWaterPrepareInputsAsWritten | eocanvas/processes.py:98-108 | as written, the outputs are always empty |
| Processes.ShearWaterPrepareInputs | eocanvas/processes.py:98-108 | the ShearWater inputs, with the base class's outputs kept |
| Processes.ShearWaterExamples | tests/test_shearwater.py:6-21 | an unknown area, a bad `start_day` and a bad `end_day` are each refused, and the valid case is accepted |

## Left out

- HTTP, sockets, files, logging, `time.sleep` and `datetime.now`: the service is a sequence of fetched job records or a function from grant to response; time is a parameter `now`.
- `API` endpoints other than the ones above are left out. These are `get_processes`, `get_jobs`, `get_job_logs`, `delete_key`, `get_public_key` and `exec_process`: each is one request with no logic beyond the request.
- `Process.submit` and `Process.run`: they only forward to `exec_process` and `JobRunner`.
- The RSA-OAEP encryption in `KeyConfig.encode`: it is the `seal` parameter.
- The `Singleton` API back-reference of every data class is not modelled.
- YAML, JSON and XML serialisation (`yaml.dump`, `json.dumps`, `lxml`) are parameters. XML syntax errors from `etree.fromstring` are not modelled.
- Api.BuildLogEntryAsWritten: the `datetime.fromisoformat` parse at api.py:220 is not modelled, so the entry keeps the sliced text. The ValueError that parse raises on a corrupted timestamp, such as one with a doubled offset, is not modelled.
- DataTailor.NewChainWithRecords: a record can be passed only for its own slot. Python also accepts a record in another field (`id=Filter(...)`) or of another kind (`filter=RegionOfInterest(...)`) and keeps it; those calls are not modelled, because the model's plain fields hold JSON values.
- DataTailor.NewQuicklookWithFilter: only a `Filter` can be passed already built. A record of another kind as `filter`, or a record in another field, is kept by Python but is not modelled, for the same reason.
- DataTailor.CheckKeywords: it names some unexpected keyword, not the first one. Python dicts are modelled as maps, which have no insertion order.
- JobRunner.Backoff: it is computed on exact reals, so the drift of repeated float multiplication by 1.1 is not modelled.
- StrFormat.Format: only simple field names are modelled. A field containing `{`, `.`, `[`, `!` or `:` gives `Unsupported`, where Python raises ValueError for a nested `{` inside a field name (`"{a{b}}"`), and looks up an attribute or an item for `{a.b}` and `{a[0]}`. A field made of non-ASCII Unicode decimal digits counts as positional in Python, which raises IndexError; the model treats it as a keyword and gives KeyError when it is missing. The endpoint templates use none of these.
- Strptime.ParseDate: only ASCII digits are modelled. Python's `\d` also accepts other Unicode decimal digits.
- SnapGraph.AddNode: on an error it returns the error only. Python has by then already mutated the graph partially, which is not modelled.
- SnapOperator.SetAttr: attribute names that shadow methods of `Operator` (`to_dict`, `describe`, …) are not modelled. Assigning a string to `operator` is SnapOperator.SetOperatorName. Assigning `_params`, `_snap_operators` or a non-string `operator` gives Unsupported. Python accepts such an assignment, and `to_dict` or `add_node` then work on the replaced value; that is not modelled.
- SnapOperator.NewOperator: a keyword or catalogue parameter named `_params` or `_snap_operators`, or a catalogue parameter named `operator`, gives Unsupported. Python assigns it over the object's own attribute of that name, which is not modelled.
- Auth.CheckStatus: the server answers a repeated request the same way, so a retried status always uses up the retries. A server that recovers between retries is not modelled. urllib3 also retries 413 and 429 when the response carries a `Retry-After` header. Response headers are not modelled, so 429 is read as arriving without one. The retry adapter is mounted only for `https://`; the model assumes the token service URL uses that scheme.
- Auth.Post: the five retries and their back-off sleeps are not counted; only the final outcome is modelled.
- Auth.Authorize: header names are compared case-insensitively on ASCII letters only. `requests` uses `str.lower`, which also folds non-ASCII letters; a name that matches `authorization` only under that wider folding is not modelled.
- `Graph.from_text`, `from_uri`, `b64encode`, `view` and `save_graph`, together with the `print` inside `add_node`: these are I/O and XML text.
- `describe_operators`, `list_operators` and `describe`: they print catalogue text.
- A node id containing `"` would break the xpath expression in `add_node`. Node ids are compared as plain strings.
- The operator catalogue shipped with the library is a parameter (`Catalogue`).
- Malformed token responses, that is JSON without `access_token`, are not modelled.
- The test at tests/test_process.py:84-98 passes `epct_config`, which is not a field of `DataTailorProcess`. The code follows the dataclass, so the model has no such input.

## Findings

| source | as written | input that shows it | evidently intended | confidence | as-written member | corrected member |
|---|---|---|---|---|---|---|
| eocanvas/auth.py:123-133 | the refresh response comes from `http.post`, which already raised for any 4xx (eocanvas/http.py:48-51), so the 400/403 fallback to the password grant never runs | a stored refresh token that the service refuses with 403, while the password grant would succeed | a refused refresh falls back to the password grant | not executed | Auth.RefusedRefreshRaisesAsWritten | Auth.SetToken |
| eocanvas/api.py:219 | `ts[:26] + ts[-6:]` assumes exactly nine fraction digits and a six-character offset | `2024-12-06T15:31:45+00:00` becomes `2024-12-06T15:31:45+00:00+00:00` | cut the fraction to at most six digits and keep the rest | not executed | Api.TruncateCorruptsShortFraction | Api.TruncateTimestampFraction |
| eocanvas/processes.py:60-69 | the subclasses' `prepare_inputs` hard-code `"outputs": {}`, dropping the output key that the base class sends | `DataTailorProcess(..., output=Key(name="output_key"))`, which the test at tests/test_process.py:69-81 expects to produce an `output` entry | keep the base class's `outputs` block | not executed | Processes.DataTailorOutputKeyDropped | Processes.DataTailorPrepareInputs |
