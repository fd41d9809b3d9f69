/**
 What the engine of `BaselineRequest` guarantees for every endpoint entry and
 every option hash: how one parameter resolves, that path errors and group
 errors come one per failing parameter or group in declaration order, how the
 URL template is filled, what the query filter keeps, when the request is
 issued, and what `set_option` does.
 */
module RequestProperties {
  import opened Wrappers
  import opened Values
  import opened Substitution
  import opened Endpoints
  import opened Positions
  import opened BaselineRequest

  // ---------------------------------------------------------------------------
  // Resolving one path parameter
  // ---------------------------------------------------------------------------

  /** A string parameter takes the option unless it is nil or false (Ruby `||`),
      and the default otherwise. */
  lemma StringFallback(p: PathParam, o: Options)
    requires !p.spec.IsBool()
    ensures p.name in o && Truthy(o[p.name]) ==> PathValue(p, o) == o[p.name]
    ensures p.name in o && !Truthy(o[p.name]) ==> PathValue(p, o) == p.spec.Default()
    ensures p.name !in o ==> PathValue(p, o) == p.spec.Default()
  {
  }

  /** A supplied empty string is truthy, so it is used instead of the default,
      substitutes as nothing, and is reported when the parameter is required,
      whatever the default. */
  lemma EmptyStringKept(p: PathParam, o: Options)
    requires !p.spec.IsBool() && p.name in o && o[p.name] == Str("")
    ensures PathValue(p, o) == Str("")
    ensures PathText(p, o) == ""
    ensures Missing(p, o) <==> p.spec.Required()
  {
  }

  /** A boolean parameter selects the entry of its spec named by the option's
      string form when that entry is truthy, and otherwise the entry named by
      the default's string form. A parameter without `required` is never
      reported, whatever it resolves to. */
  lemma BooleanLookup(p: PathParam, o: Options)
    requires p.spec.IsBool()
    ensures Truthy(p.spec.At(ToS(Lookup(o, p.name)))) ==> PathValue(p, o) == p.spec.At(ToS(Lookup(o, p.name)))
    ensures !Truthy(p.spec.At(ToS(Lookup(o, p.name)))) ==> PathValue(p, o) == p.spec.At(ToS(p.spec.Default()))
    ensures Lookup(o, p.name) == Bool(true) && Truthy(p.spec.At("true")) ==> PathValue(p, o) == p.spec.At("true")
    ensures Lookup(o, p.name) == Bool(false) && Truthy(p.spec.At("false")) ==> PathValue(p, o) == p.spec.At("false")
    ensures p.name !in o && !Truthy(p.spec.At("")) ==> PathValue(p, o) == p.spec.At(ToS(p.spec.Default()))
    ensures !p.spec.Required() ==> !Missing(p, o)
  {
  }

  /** The boolean parameters of the table (`recipients`, `all`, `prospects`,
      `latest`): the option `true` (or "true") gives the true text, `false` (or
      "false") the false text, even when the false text is empty and the default
      is true; the names of the hash's other entries select those entries; any
      other option falls back to the text for the default. Such a parameter is
      never reported. */
  lemma BooleanSwitch(p: PathParam, o: Options, t: string, f: string, b: bool)
    requires
      var m := map["type" := Str("bool"), "default" := Bool(b), "true" := Str(t), "false" := Str(f)];
      p.spec.entries == m || p.spec.entries == m["required" := Bool(false)]
    ensures
      var s := ToS(Lookup(o, p.name));
      PathText(p, o) ==
        if s == "true" then t
        else if s == "false" then f
        else if s == "type" then "bool"
        else if s == "default" && b then "true"
        else if b then t
        else f
    ensures !Missing(p, o)
  {
    var s := ToS(Lookup(o, p.name));
    assert p.spec.At("type") == Str("bool");
    assert !p.spec.LeadingSlash();
    if s != "true" && s != "false" && s != "type" && s != "default" && s != "required" {
      assert s !in p.spec.entries;
    }
  }

  /** A slash is put before the value's string form exactly when the spec asks
      for it and that form is not blank; nil substitutes as nothing. */
  lemma LeadingSlashRule(p: PathParam, o: Options)
    ensures PathText(p, o) == ToS(PathValue(p, o)) || PathText(p, o) == "/" + ToS(PathValue(p, o))
    ensures PathText(p, o) == "/" + ToS(PathValue(p, o)) <==>
      p.spec.LeadingSlash() && !BlankText(ToS(PathValue(p, o)))
    ensures PathValue(p, o).Nil? ==> PathText(p, o) == ""
  {
    var s := ToS(PathValue(p, o));
    if PathText(p, o) == "/" + s {
      assert |PathText(p, o)| != |s|;
    }
  }

  // ---------------------------------------------------------------------------
  // Path errors
  // ---------------------------------------------------------------------------

  /** `errs` names the parameters of `ps` at positions `idx`, one for one. */
  predicate Reports(errs: seq<Error>, idx: seq<nat>, ps: seq<PathParam>)
  {
    && |errs| == |idx|
    && forall k :: 0 <= k < |idx| ==> idx[k] < |ps| && errs[k] == MissingPathParam(ps[idx[k]].name)
  }

  /** `construct_path` reports one error per missing parameter, in declaration
      order, and does not stop at the first one. */
  lemma {:induction false} PathErrorsInOrder(url: string, ps: seq<PathParam>, o: Options)
    ensures Reports(Walk(url, ps, o).errors, Where(MissingMask(ps, o)), ps)
    decreases |ps|
  {
    if ps != [] {
      PathErrorsInOrder(url, ps[..|ps| - 1], o);
      PathErrorsOneMore(url, ps, o);
    }
  }

  /** The induction step of `PathErrorsInOrder`: the last parameter's error, if
      any, goes after those of the others. */
  lemma PathErrorsOneMore(url: string, ps: seq<PathParam>, o: Options)
    requires ps != []
    requires Reports(Walk(url, ps[..|ps| - 1], o).errors, Where(MissingMask(ps[..|ps| - 1], o)), ps[..|ps| - 1])
    ensures Reports(Walk(url, ps, o).errors, Where(MissingMask(ps, o)), ps)
  {
    var n := |ps| - 1;
    var mask := MissingMask(ps, o);
    assert MissingMask(ps[..n], o) == mask[..n];
    var idx0 := Where(mask[..n]);
    var errs0 := Walk(url, ps[..n], o).errors;
    ReportsWiden(errs0, idx0, ps, n);
    if mask[n] {
      assert Where(mask) == idx0 + [n];
      assert Walk(url, ps, o).errors == errs0 + [MissingPathParam(ps[n].name)];
      ReportsAppend(errs0, idx0, ps, n);
    } else {
      assert Where(mask) == idx0;
      assert Walk(url, ps, o).errors == errs0;
    }
  }

  /** What is reported about a prefix is reported about the whole list. */
  lemma ReportsWiden(errs: seq<Error>, idx: seq<nat>, ps: seq<PathParam>, n: nat)
    requires n <= |ps| && Reports(errs, idx, ps[..n])
    ensures Reports(errs, idx, ps)
  {
    forall k | 0 <= k < |idx|
      ensures idx[k] < |ps| && errs[k] == MissingPathParam(ps[idx[k]].name)
    {
      assert ps[..n][idx[k]] == ps[idx[k]];
    }
  }

  lemma ReportsAppend(errs: seq<Error>, idx: seq<nat>, ps: seq<PathParam>, n: nat)
    requires n < |ps| && Reports(errs, idx, ps)
    ensures Reports(errs + [MissingPathParam(ps[n].name)], idx + [n], ps)
  {
  }

  lemma PathErrorsEmpty(url: string, ps: seq<PathParam>, o: Options)
    ensures Walk(url, ps, o).errors == [] <==> forall i :: 0 <= i < |ps| ==> !Missing(ps[i], o)
  {
    PathErrorsInOrder(url, ps, o);
    WhereEmpty(MissingMask(ps, o));
  }

  /** A name whose parameters are never missing never appears in the error array. */
  lemma {:induction false} NotMissingNotReported(url: string, ps: seq<PathParam>, o: Options, name: string)
    requires forall i :: 0 <= i < |ps| && ps[i].name == name ==> !Missing(ps[i], o)
    ensures MissingPathParam(name) !in Walk(url, ps, o).errors
    decreases |ps|
  {
    if ps != [] {
      var n := |ps| - 1;
      NotMissingNotReported(url, ps[..n], o, name);
    }
  }

  /** A missing first parameter is the first error reported. */
  lemma FirstMissingReportedFirst(url: string, ps: seq<PathParam>, o: Options)
    requires |ps| > 0 && Missing(ps[0], o)
    ensures var errs := Walk(url, ps, o).errors;
      |errs| > 0 && errs[0] == MissingPathParam(ps[0].name)
  {
    var mask := MissingMask(ps, o);
    var idx := Where(mask);
    PathErrorsInOrder(url, ps, o);
    assert 0 in idx;
    var k :| 0 <= k < |idx| && idx[k] == 0;
    assert idx[0] <= idx[k];
  }

  predicate DistinctNames(ps: seq<PathParam>)
  {
    forall i, j :: 0 <= i < j < |ps| ==> ps[i].name != ps[j].name
  }

  /** A required string parameter with a blank default that the caller leaves
      out (or sets to nil or false) is reported exactly once, and no request is
      issued. */
  lemma RequiredWithoutValueFails(d: Descriptor, o: Options, j: nat)
    requires j < |d.pathParams| && DistinctNames(d.pathParams)
    requires !d.pathParams[j].spec.IsBool() && d.pathParams[j].spec.Required()
    requires Blank(d.pathParams[j].spec.Default()) && !Truthy(Lookup(o, d.pathParams[j].name))
    ensures var errs := ConstructPath(d, o).errors;
      && MissingPathParam(d.pathParams[j].name) in errs
      && forall k, l :: 0 <= k < l < |errs| && errs[k] == MissingPathParam(d.pathParams[j].name) ==>
           errs[l] != errs[k]
    ensures CallApi(d, o).Failure?
  {
    var ps := d.pathParams;
    PathErrorsInOrder(d.url, ps, o);
    var idx := Where(MissingMask(ps, o));
    var errs := ConstructPath(d, o).errors;
    assert Missing(ps[j], o);
    assert j in idx;
    var k :| 0 <= k < |idx| && idx[k] == j;
    assert errs[k] == MissingPathParam(ps[j].name);
    forall k, l | 0 <= k < l < |errs| && errs[k] == MissingPathParam(ps[j].name)
      ensures errs[l] != errs[k]
    {
      assert idx[k] < idx[l];
      assert ps[idx[k]].name != ps[idx[l]].name;
    }
  }

  // ---------------------------------------------------------------------------
  // Filling the URL template
  // ---------------------------------------------------------------------------

  function Tokens(ps: seq<PathParam>): (ts: seq<string>)
    ensures |ts| == |ps|
    ensures forall i :: 0 <= i < |ps| ==> ts[i] == Token(ps[i].name)
  {
    seq(|ps|, i requires 0 <= i < |ps| => Token(ps[i].name))
  }

  function Texts(ps: seq<PathParam>, o: Options): (ts: seq<string>)
    ensures |ts| == |ps|
    ensures forall i :: 0 <= i < |ps| ==> ts[i] == PathText(ps[i], o)
  {
    seq(|ps|, i requires 0 <= i < |ps| => PathText(ps[i], o))
  }

  /** After the first `j` parameters, their tokens hold their texts and the
      later tokens are still in place. */
  lemma {:induction false} FilledPrefix(segs: seq<string>, ps: seq<PathParam>, o: Options, j: nat)
    requires |segs| == |ps| + 1 && j <= |ps|
    requires forall i :: 0 <= i < |segs| ==> '{' !in segs[i]
    requires forall i :: 0 <= i < |ps| ==> '{' !in PathText(ps[i], o)
    ensures Walk(Fill(segs, Tokens(ps)), ps[..j], o).url == Fill(segs, Texts(ps, o)[..j] + Tokens(ps)[j..])
    decreases j
  {
    if j == 0 {
      assert ps[..0] == [];
      assert Texts(ps, o)[..0] + Tokens(ps)[0..] == Tokens(ps);
    } else {
      FilledPrefix(segs, ps, o, j - 1);
      FilledOneMore(segs, ps, o, j);
    }
  }

  /** The induction step of `FilledPrefix`: one more parameter substituted. */
  lemma FilledOneMore(segs: seq<string>, ps: seq<PathParam>, o: Options, j: nat)
    requires |segs| == |ps| + 1 && 0 < j <= |ps|
    requires forall i :: 0 <= i < |segs| ==> '{' !in segs[i]
    requires forall i :: 0 <= i < |ps| ==> '{' !in PathText(ps[i], o)
    requires Walk(Fill(segs, Tokens(ps)), ps[..j - 1], o).url == Fill(segs, Texts(ps, o)[..j - 1] + Tokens(ps)[j - 1..])
    ensures Walk(Fill(segs, Tokens(ps)), ps[..j], o).url == Fill(segs, Texts(ps, o)[..j] + Tokens(ps)[j..])
  {
    var texts := Texts(ps, o);
    WalkLastUrl(Fill(segs, Tokens(ps)), ps, o, j);
    assert forall i :: 0 <= i < |texts| ==> '{' !in texts[i];
    FillAdvance(segs, texts, Tokens(ps), j);
  }

  lemma WalkLastUrl(url: string, ps: seq<PathParam>, o: Options, j: nat)
    requires 0 < j <= |ps|
    ensures Walk(url, ps[..j], o).url == Sub(Walk(url, ps[..j - 1], o).url, Token(ps[j - 1].name), PathText(ps[j - 1], o))
  {
    assert ps[..j][..j - 1] == ps[..j - 1];
  }

  /** When neither the literal pieces of the template nor the substituted texts
      contain `{`, every token is replaced by its parameter's text, in place:
      earlier substitutions cannot disturb later tokens. */
  lemma TemplateFilledInOrder(d: Descriptor, o: Options, segs: seq<string>)
    requires |segs| == |d.pathParams| + 1
    requires d.url == Fill(segs, Tokens(d.pathParams))
    requires forall i :: 0 <= i < |segs| ==> '{' !in segs[i]
    requires forall i :: 0 <= i < |d.pathParams| ==> '{' !in PathText(d.pathParams[i], o)
    ensures ConstructPath(d, o).url == Fill(segs, Texts(d.pathParams, o))
  {
    var ps := d.pathParams;
    FilledPrefix(segs, ps, o, |ps|);
    Whole(ps, ps);
    Whole(Texts(ps, o), Tokens(ps));
  }

  /** A parameter whose token is not in the URL changes nothing in it, though it
      may still be reported. */
  lemma AbsentTokenKeepsUrl(r: PathResult, p: PathParam, o: Options)
    requires forall j :: 0 <= j <= |r.url| ==> !OccursAt(r.url, Token(p.name), j)
    ensures Step(r, p, o).url == r.url
    ensures Step(r, p, o).errors == r.errors + ErrorsOf(p, o)
  {
  }

  // ---------------------------------------------------------------------------
  // The query filter
  // ---------------------------------------------------------------------------

  /** Filtering an already filtered query changes nothing. */
  lemma QueryIdempotent(d: Descriptor, o: Options)
    ensures Query(d, Query(d, o)) == Query(d, o)
  {
  }

  lemma {:induction false} WalkIgnores(url: string, ps: seq<PathParam>, o: Options, k: string, v: Value)
    requires forall i :: 0 <= i < |ps| ==> ps[i].name != k
    ensures Walk(url, ps, o[k := v]) == Walk(url, ps, o)
    decreases |ps|
  {
    if ps != [] {
      var n := |ps| - 1;
      WalkIgnores(url, ps[..n], o, k, v);
      var p := ps[n];
      assert Lookup(o[k := v], p.name) == Lookup(o, p.name);
      assert PathValue(p, o[k := v]) == PathValue(p, o);
    }
  }

  /** An option that is neither an accepted query key nor a path parameter
      changes neither the URL, nor the errors, nor the query. */
  lemma ExtraneousOptionIgnored(d: Descriptor, o: Options, k: string, v: Value)
    requires !Slices(d.queryParams, k) && k !in Names(d.pathParams)
    ensures Query(d, o[k := v]) == Query(d, o)
    ensures ConstructPath(d, o[k := v]) == ConstructPath(d, o)
    ensures CallApi(d, o[k := v]) == CallApi(d, o)
  {
    assert forall i :: 0 <= i < |d.pathParams| ==> d.pathParams[i].name == Names(d.pathParams)[i];
    WalkIgnores(d.url, d.pathParams, o, k, v);
  }

  // ---------------------------------------------------------------------------
  // Required groups and the HTTP gate
  // ---------------------------------------------------------------------------

  /** `errs` names the groups of `groups` at positions `idx`, one for one. */
  predicate GroupReports(errs: seq<Error>, idx: seq<nat>, groups: seq<seq<string>>)
  {
    && |errs| == |idx|
    && forall k :: 0 <= k < |idx| ==> idx[k] < |groups| && errs[k] == MissingGroup(groups[idx[k]])
  }

  /** One error per unmet group, in the order the groups are declared. */
  lemma {:induction false} GroupErrorsInOrder(groups: seq<seq<string>>, q: Options)
    ensures GroupReports(GroupErrors(groups, q), Where(UnmetMask(groups, q)), groups)
    decreases |groups|
  {
    if groups != [] {
      GroupErrorsInOrder(groups[..|groups| - 1], q);
      GroupErrorsOneMore(groups, q);
    }
  }

  /** The induction step of `GroupErrorsInOrder`. */
  lemma GroupErrorsOneMore(groups: seq<seq<string>>, q: Options)
    requires groups != []
    requires GroupReports(GroupErrors(groups[..|groups| - 1], q), Where(UnmetMask(groups[..|groups| - 1], q)),
                          groups[..|groups| - 1])
    ensures GroupReports(GroupErrors(groups, q), Where(UnmetMask(groups, q)), groups)
  {
    var n := |groups| - 1;
    var mask := UnmetMask(groups, q);
    assert UnmetMask(groups[..n], q) == mask[..n];
    var idx0 := Where(mask[..n]);
    var errs0 := GroupErrors(groups[..n], q);
    GroupReportsWiden(errs0, idx0, groups, n);
    if mask[n] {
      assert Where(mask) == idx0 + [n];
      assert GroupErrors(groups, q) == errs0 + [MissingGroup(groups[n])];
      GroupReportsAppend(errs0, idx0, groups, n);
    } else {
      assert Where(mask) == idx0;
      assert GroupErrors(groups, q) == errs0;
    }
  }

  lemma GroupReportsWiden(errs: seq<Error>, idx: seq<nat>, groups: seq<seq<string>>, n: nat)
    requires n <= |groups| && GroupReports(errs, idx, groups[..n])
    ensures GroupReports(errs, idx, groups)
  {
    forall k | 0 <= k < |idx|
      ensures idx[k] < |groups| && errs[k] == MissingGroup(groups[idx[k]])
    {
      assert groups[..n][idx[k]] == groups[idx[k]];
    }
  }

  lemma GroupReportsAppend(errs: seq<Error>, idx: seq<nat>, groups: seq<seq<string>>, n: nat)
    requires n < |groups| && GroupReports(errs, idx, groups)
    ensures GroupReports(errs + [MissingGroup(groups[n])], idx + [n], groups)
  {
  }

  lemma GroupErrorsEmpty(groups: seq<seq<string>>, q: Options)
    ensures GroupErrors(groups, q) == [] <==> forall g :: 0 <= g < |groups| ==> Met(groups[g], q)
  {
    GroupErrorsInOrder(groups, q);
    WhereEmpty(UnmetMask(groups, q));
  }

  /** A group is satisfied by any accepted member that is a key of the options,
      whatever its value, nil included. */
  lemma GroupMetByPresence(d: Descriptor, o: Options, group: seq<string>, m: string)
    requires m in group && m in o && Slices(d.queryParams, m)
    ensures Met(group, Query(d, o))
  {
    assert m in Query(d, o);
  }

  /** The request is issued exactly when no path parameter is missing and every
      required group is met by the filtered query; it then carries the filled
      URL and that query. */
  lemma RequestGate(d: Descriptor, o: Options)
    ensures CallApi(d, o).Success? <==>
      && (forall i :: 0 <= i < |d.pathParams| ==> !Missing(d.pathParams[i], o))
      && (forall g :: 0 <= g < |d.requiredParams| ==> Met(d.requiredParams[g], Query(d, o)))
    ensures CallApi(d, o).Success? ==> CallApi(d, o).value == HttpGet(ConstructPath(d, o).url, Query(d, o))
  {
    PathErrorsEmpty(d.url, d.pathParams, o);
    GroupErrorsEmpty(d.requiredParams, Query(d, o));
  }

  /** A rejected request lists the path errors first, one per missing parameter
      in declaration order, and then one error per unmet group in order. */
  lemma ErrorsPathThenGroups(d: Descriptor, o: Options)
    ensures CallApi(d, o).Failure? ==>
      var pi := Where(MissingMask(d.pathParams, o));
      var gi := Where(UnmetMask(d.requiredParams, Query(d, o)));
      var errs := CallApi(d, o).error;
      && |errs| == |pi| + |gi| > 0
      && Reports(errs[..|pi|], pi, d.pathParams)
      && GroupReports(errs[|pi|..], gi, d.requiredParams)
  {
    var path := ConstructPath(d, o).errors;
    var groups := GroupErrors(d.requiredParams, Query(d, o));
    PathErrorsInOrder(d.url, d.pathParams, o);
    GroupErrorsInOrder(d.requiredParams, Query(d, o));
    CallApiErrors(d, o);
    if CallApi(d, o).Failure? {
      var errs := CallApi(d, o).error;
      assert errs[..|path|] == path;
      assert errs[|path|..] == groups;
    }
  }

  /** A rejected request carries the path errors followed by the group errors. */
  lemma CallApiErrors(d: Descriptor, o: Options)
    ensures CallApi(d, o).Failure? ==>
      CallApi(d, o).error == ConstructPath(d, o).errors + GroupErrors(d.requiredParams, Query(d, o)) != []
  {
  }

  /** An endpoint whose parameters are all optional or have a non-blank string
      default, and which has no required groups, accepts empty options. */
  lemma EmptyOptionsSucceed(d: Descriptor)
    requires d.requiredParams == []
    requires forall i :: 0 <= i < |d.pathParams| ==>
      !d.pathParams[i].spec.Required() || (!d.pathParams[i].spec.IsBool() && Present(d.pathParams[i].spec.Default()))
    ensures CallApi(d, map[]) == Success(HttpGet(ConstructPath(d, map[]).url, map[]))
  {
    forall i | 0 <= i < |d.pathParams|
      ensures !Missing(d.pathParams[i], map[])
    {
      var p := d.pathParams[i];
      if p.spec.Required() {
        assert PathValue(p, map[]) == p.spec.Default();
      }
    }
    RequestGate(d, map[]);
    assert Query(d, map[]) == map[];
  }

  // ---------------------------------------------------------------------------
  // set_option
  // ---------------------------------------------------------------------------

  /** Without `overwrite`, a key that already holds a truthy value is left as it is. */
  lemma SetOptionKeepsExisting(req: Request, key: string, value: Value)
    requires Allowed(req.info, key) && key in req.options && Truthy(req.options[key])
    ensures SetOption(req, key, value, false) == Success(req)
  {
    assert req.options[key := req.options[key]] == req.options;
  }

  /** Setting a default twice is the same as setting it once. */
  lemma SetOptionKeepIdempotent(req: Request, key: string, value: Value)
    requires Allowed(req.info, key)
    ensures var once := SetOption(req, key, value, false);
      once.Success? && SetOption(once.value, key, value, false) == once
  {
    var once := SetOption(req, key, value, false).value;
    assert once.options[key := once.options[key]] == once.options;
  }

  /** Of two overwriting calls on one key, the later one wins. */
  lemma SetOptionLastWins(req: Request, key: string, v1: Value, v2: Value)
    requires Allowed(req.info, key)
    ensures var first := SetOption(req, key, v1, true);
      first.Success? && SetOption(first.value, key, v2, true) == SetOption(req, key, v2, true)
  {
    assert req.options[key := v1][key := v2] == req.options[key := v2];
  }

  /** An option set on an accepted query key reaches the query unchanged. */
  lemma SetOptionReachesQuery(req: Request, key: string, value: Value)
    requires Allowed(req.info, key) && Slices(req.info.queryParams, key)
    ensures var r := SetOption(req, key, value, true);
      r.Success? && key in Query(r.value.info, r.value.options) && Query(r.value.info, r.value.options)[key] == value
  {
  }
}
