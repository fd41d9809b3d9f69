/**
 The request-construction engine of the `BaselineRequest` class: endpoint
 lookup, path resolution, query filtering, the required-group check that
 gates the HTTP call, and the option setter.

 The HTTP call itself is not modelled; a request that passes validation is
 returned as the `HttpGet(url, query)` pair that would be handed to it.
 */
module BaselineRequest {
  import opened Wrappers
  import opened Values
  import opened Substitution
  import opened Endpoints
  import opened Positions

  /** The entries of the error array `call_api` returns. */
  datatype Error = MissingPathParam(name: string) | MissingGroup(group: seq<string>)

  /** The exceptions the class raises. */
  datatype Raised =
    | NotAValidEndpoint(endpoint: string)
    | NotAValidParameter(key: string, endpoint: string)
      /** raised by `params` when an entry's query list is a string, which cannot be
          joined with an array */
    | NoImplicitConversion

  /** A `BaselineRequest` object: its endpoint name, the endpoint's entry and its options. */
  datatype Request = Request(endpoint: string, info: Descriptor, options: Options)

  /** The URL and the query the HTTP GET would be sent with. */
  datatype HttpGet = HttpGet(url: string, query: Options)

  /** The `[url, error_array]` pair `construct_path` returns. */
  datatype PathResult = PathResult(url: string, errors: seq<Error>)

  /** `BaselineRequest.new(endpoint, options)`: raises for a name the table does not hold. */
  function New(registry: map<string, Descriptor>, endpoint: string, options: Options): (r: Result<Request, Raised>)
    ensures r.Failure? <==> endpoint !in registry
    ensures r.Failure? ==> r.error == NotAValidEndpoint(endpoint)
    ensures r.Success? ==> r.value.endpoint == endpoint && r.value.options == options
    ensures r.Success? ==> r.value.info == registry[endpoint]
  {
    if endpoint in registry then Success(Request(endpoint, registry[endpoint], options))
    else Failure(NotAValidEndpoint(endpoint))
  }

  function Token(name: string): (t: string)
    ensures |t| > 0 && t[0] == '{'
  {
    "{" + name + "}"
  }

  /** The value a path parameter resolves to. A boolean parameter looks the
      option's string form up as a key of its own spec, falling back to the key
      named by the default's string form; a string parameter takes the option
      unless it is nil or false, and the default otherwise. */
  function PathValue(p: PathParam, o: Options): Value
  {
    if p.spec.IsBool() then Or(p.spec.At(ToS(Lookup(o, p.name))), p.spec.At(ToS(p.spec.Default())))
    else Or(Lookup(o, p.name), p.spec.Default())
  }

  /** A required parameter whose resolved value is blank is reported. */
  predicate Missing(p: PathParam, o: Options)
  {
    p.spec.Required() && Blank(PathValue(p, o))
  }

  /** The text put in place of the token: the value's string form, after a
      slash when the spec asks for one and that form is not blank. */
  function PathText(p: PathParam, o: Options): string
  {
    var s := ToS(PathValue(p, o));
    if Present(Str(s)) && p.spec.LeadingSlash() then "/" + s else s
  }

  /** What one parameter adds to the error array. */
  function ErrorsOf(p: PathParam, o: Options): seq<Error>
  {
    if Missing(p, o) then [MissingPathParam(p.name)] else []
  }

  /** One iteration of the loop over `path_params`. */
  function Step(r: PathResult, p: PathParam, o: Options): PathResult
  {
    PathResult(Sub(r.url, Token(p.name), PathText(p, o)), r.errors + ErrorsOf(p, o))
  }

  /** The loop's state after it has processed every parameter of `ps`, in order. */
  function Walk(url: string, ps: seq<PathParam>, o: Options): PathResult
    decreases |ps|
  {
    if ps == [] then PathResult(url, [])
    else Step(Walk(url, ps[..|ps| - 1], o), ps[|ps| - 1], o)
  }

  function ConstructPath(d: Descriptor, o: Options): PathResult
  {
    Walk(d.url, d.pathParams, o)
  }

  /** Which parameters of `ps` are reported missing. */
  function MissingMask(ps: seq<PathParam>, o: Options): (m: seq<bool>)
    ensures |m| == |ps|
    ensures forall i :: 0 <= i < |ps| ==> (m[i] <==> Missing(ps[i], o))
  {
    seq(|ps|, i requires 0 <= i < |ps| => Missing(ps[i], o))
  }

  /** Whether the query filter keeps the option `key`. A string query list
      accepts that one key; a nested array never equals a key. */
  predicate Slices(q: QueryParams, key: string)
  {
    match q
    case Listed(items) => Name(key) in items
    case Text(t) => key == t
  }

  /** The query: the options whose keys the endpoint accepts, values untouched. */
  function Query(d: Descriptor, o: Options): (q: Options)
    ensures forall k :: k in q <==> k in o && Slices(d.queryParams, k)
    ensures forall k :: k in q ==> q[k] == o[k]
  {
    map k | k in o && Slices(d.queryParams, k) :: o[k]
  }

  /** A group is met when one of its names is a key of the filtered query;
      the key being there is enough, whatever its value. */
  predicate Met(group: seq<string>, q: Options)
  {
    exists m :: m in group && m in q
  }

  /** One error per required group none of whose members is a query key, in order. */
  function GroupErrors(groups: seq<seq<string>>, q: Options): seq<Error>
    decreases |groups|
  {
    if groups == [] then []
    else
      var g := groups[|groups| - 1];
      GroupErrors(groups[..|groups| - 1], q) + (if Met(g, q) then [] else [MissingGroup(g)])
  }

  function UnmetMask(groups: seq<seq<string>>, q: Options): (m: seq<bool>)
    ensures |m| == |groups|
    ensures forall i :: 0 <= i < |groups| ==> (m[i] <==> !Met(groups[i], q))
  {
    seq(|groups|, i requires 0 <= i < |groups| => !Met(groups[i], q))
  }

  /** `call_api` up to the HTTP call: the path errors, then the group errors;
      the request is issued only when there are none. */
  function CallApi(d: Descriptor, o: Options): Result<HttpGet, seq<Error>>
  {
    var path := ConstructPath(d, o);
    var query := Query(d, o);
    var errors := path.errors + GroupErrors(d.requiredParams, query);
    if errors == [] then Success(HttpGet(path.url, query)) else Failure(errors)
  }

  /** The keys an entry accepts: its query names followed by its placeholder
      names. An entry whose query list is a string raises instead. */
  function Params(d: Descriptor): (r: Result<seq<QueryItem>, Raised>)
    ensures r.Failure? <==> d.queryParams.Text?
    ensures r.Failure? ==> r.error == NoImplicitConversion
    ensures r.Success? ==> forall key :: Name(key) in r.value <==>
      (Name(key) in d.queryParams.items || key in Names(d.pathParams))
  {
    match d.queryParams
    case Text(_) => Failure(NoImplicitConversion)
    case Listed(items) =>
      var keys := seq(|d.pathParams|, i requires 0 <= i < |d.pathParams| => Name(d.pathParams[i].name));
      assert forall key :: Name(key) in keys <==> key in Names(d.pathParams) by {
        forall key
          ensures Name(key) in keys <==> key in Names(d.pathParams)
        {
          if key in Names(d.pathParams) {
            var i :| 0 <= i < |d.pathParams| && Names(d.pathParams)[i] == key;
            assert keys[i] == Name(key);
          }
        }
      }
      Success(items + keys)
  }

  /** The keys `set_option` accepts. */
  predicate Allowed(d: Descriptor, key: string)
  {
    d.queryParams.Listed? && (Name(key) in d.queryParams.items || key in Names(d.pathParams))
  }

  /** Setting an option: with `overwrite` the key takes the
      value; without it an existing truthy value is kept. Only legal keys are
      accepted, and nothing but the one key changes. */
  function SetOption(req: Request, key: string, value: Value, overwrite: bool): (r: Result<Request, Raised>)
    ensures r.Success? <==> Allowed(req.info, key)
    ensures r.Failure? ==> r.error == (if req.info.queryParams.Text? then NoImplicitConversion
                                       else NotAValidParameter(key, req.endpoint))
    ensures r.Success? ==> r.value.endpoint == req.endpoint && r.value.info == req.info
    ensures r.Success? ==> r.value.options.Keys == req.options.Keys + {key}
    ensures r.Success? ==> forall k :: k in req.options && k != key ==> r.value.options[k] == req.options[k]
    ensures r.Success? && overwrite ==> r.value.options[key] == value
    ensures r.Success? && !overwrite ==>
      r.value.options[key] == (if key in req.options && Truthy(req.options[key]) then req.options[key] else value)
  {
    match Params(req.info)
    case Failure(e) => Failure(e)
    case Success(ps) =>
      if Name(key) !in ps then Failure(NotAValidParameter(key, req.endpoint))
      else
        var stored := if overwrite then value else Or(Lookup(req.options, key), value);
        Success(req.(options := req.options[key := stored]))
  }
}
