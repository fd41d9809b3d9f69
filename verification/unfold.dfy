/**
 Unfolding the engine on short parameter lists: the loop, the template, the
 group check and the query filter spelled out for one to four entries, so
 that statements about single endpoints reduce to small steps.

 Some lemmas here state plain facts about sequences and strings (`Two`,
 `Three`, `Four`, `Unit`, `Assoc`, `BaseUrlPlain`). They are named lemmas
 rather than inline assertions so that each call site hands the solver one
 small, already proved fact instead of the unfolded definitions, which keeps
 the proofs about single endpoints cheap.
 */
module Unfold {
  import opened Wrappers
  import opened Values
  import opened Substitution
  import opened Endpoints
  import opened BaselineRequest
  import opened RequestProperties

  // ---------------------------------------------------------------------------
  // Unfolding the loop and the template for short parameter lists
  // ---------------------------------------------------------------------------

  lemma Fill1(s0: string, t0: string, s1: string)
    ensures Fill([s0, s1], [t0]) == s0 + t0 + s1
  {
    assert [s0, s1][..1] == [s0];
    assert [t0][..0] == [];
  }

  lemma Fill2(s0: string, t0: string, s1: string, t1: string, s2: string)
    ensures Fill([s0, s1, s2], [t0, t1]) == s0 + t0 + s1 + t1 + s2
  {
    assert [s0, s1, s2][..2] == [s0, s1];
    assert [t0, t1][..1] == [t0];
    Fill1(s0, t0, s1);
  }

  lemma Fill3(s0: string, t0: string, s1: string, t1: string, s2: string, t2: string, s3: string)
    ensures Fill([s0, s1, s2, s3], [t0, t1, t2]) == s0 + t0 + s1 + t1 + s2 + t2 + s3
  {
    assert [s0, s1, s2, s3][..3] == [s0, s1, s2];
    assert [t0, t1, t2][..2] == [t0, t1];
    Fill2(s0, t0, s1, t1, s2);
  }

  lemma Fill4(s0: string, t0: string, s1: string, t1: string, s2: string, t2: string, s3: string,
              t3: string, s4: string)
    ensures Fill([s0, s1, s2, s3, s4], [t0, t1, t2, t3]) == s0 + t0 + s1 + t1 + s2 + t2 + s3 + t3 + s4
  {
    assert [s0, s1, s2, s3, s4][..4] == [s0, s1, s2, s3];
    assert [t0, t1, t2, t3][..3] == [t0, t1, t2];
    Fill3(s0, t0, s1, t1, s2, t2, s3);
  }

  lemma PathErrors1(url: string, ps: seq<PathParam>, o: Options)
    requires |ps| == 1
    ensures Walk(url, ps, o).errors == ErrorsOf(ps[0], o)
  {
    assert ps[..0] == [];
  }

  lemma PathErrors2(url: string, ps: seq<PathParam>, o: Options)
    requires |ps| == 2
    ensures Walk(url, ps, o).errors == ErrorsOf(ps[0], o) + ErrorsOf(ps[1], o)
  {
    PathErrors1(url, ps[..1], o);
  }

  lemma PathErrors3(url: string, ps: seq<PathParam>, o: Options)
    requires |ps| == 3
    ensures Walk(url, ps, o).errors == ErrorsOf(ps[0], o) + ErrorsOf(ps[1], o) + ErrorsOf(ps[2], o)
  {
    PathErrors2(url, ps[..2], o);
  }

  lemma PathErrors4(url: string, ps: seq<PathParam>, o: Options)
    requires |ps| == 4
    ensures Walk(url, ps, o).errors ==
      ErrorsOf(ps[0], o) + ErrorsOf(ps[1], o) + ErrorsOf(ps[2], o) + ErrorsOf(ps[3], o)
  {
    PathErrors3(url, ps[..3], o);
  }

  lemma Groups1(g0: seq<string>, q: Options)
    ensures GroupErrors([g0], q) == if Met(g0, q) then [] else [MissingGroup(g0)]
  {
    assert [g0][..0] == [];
  }

  lemma Groups2(g0: seq<string>, g1: seq<string>, q: Options)
    ensures GroupErrors([g0, g1], q) ==
      (if Met(g0, q) then [] else [MissingGroup(g0)]) + (if Met(g1, q) then [] else [MissingGroup(g1)])
  {
    assert [g0, g1][..1] == [g0];
    Groups1(g0, q);
  }

  /** `%w[...]` keeps exactly the listed names. */
  lemma WordsSlices(ws: seq<string>, k: string)
    ensures Slices(Words(ws), k) <==> k in ws
  {
    var q := Words(ws);
    if k in ws {
      var i :| 0 <= i < |ws| && ws[i] == k;
      assert q.items[i] == Name(k);
    }
    if Name(k) in q.items {
      var i :| 0 <= i < |q.items| && q.items[i] == Name(k);
      assert ws[i] == k;
    }
  }

  /** No option is an accepted query key: the query is empty. */
  lemma QueryNone(d: Descriptor, o: Options)
    requires forall k :: k in o ==> !Slices(d.queryParams, k)
    ensures Query(d, o) == map[]
  {
    assert Query(d, o).Keys == {};
  }

  /** The entry's URL is the literal pieces `segs` around its tokens, in
      order, and no piece holds a brace. */
  predicate Template(d: Descriptor, segs: seq<string>)
  {
    && |segs| == |d.pathParams| + 1
    && d.url == Fill(segs, Tokens(d.pathParams))
    && forall i :: 0 <= i < |segs| ==> '{' !in segs[i]
  }

  /** A sequence of known length given element by element is that display. */
  lemma Two<T>(xs: seq<T>, a: T, b: T)
    requires |xs| == 2 && xs[0] == a && xs[1] == b
    ensures xs == [a, b]
  {
  }

  lemma Three<T>(xs: seq<T>, a: T, b: T, c: T)
    requires |xs| == 3 && xs[0] == a && xs[1] == b && xs[2] == c
    ensures xs == [a, b, c]
  {
  }

  lemma Four<T>(xs: seq<T>, a: T, b: T, c: T, e: T)
    requires |xs| == 4 && xs[0] == a && xs[1] == b && xs[2] == c && xs[3] == e
    ensures xs == [a, b, c, e]
  {
  }

  /** On a template whose texts hold no brace, the URL is the template filled with the texts. */
  lemma ShapeUrl(d: Descriptor, o: Options, segs: seq<string>, ts: seq<string>)
    requires Template(d, segs)
    requires Texts(d.pathParams, o) == ts
    requires forall i :: 0 <= i < |ts| ==> '{' !in ts[i]
    ensures ConstructPath(d, o).url == Fill(segs, ts)
  {
    forall i | 0 <= i < |d.pathParams|
      ensures '{' !in PathText(d.pathParams[i], o)
    {
      assert PathText(d.pathParams[i], o) == ts[i];
    }
    TemplateFilledInOrder(d, o, segs);
  }

  /** `construct_path` on an entry with one placeholder. */
  lemma Shape1(d: Descriptor, o: Options, s0: string, s1: string, t0: string)
    requires Template(d, [s0, s1])
    requires '{' !in t0 && t0 == PathText(d.pathParams[0], o)
    ensures ConstructPath(d, o) == PathResult(s0 + t0 + s1, ErrorsOf(d.pathParams[0], o))
  {
    assert Texts(d.pathParams, o) == [t0];
    ShapeUrl(d, o, [s0, s1], [t0]);
    Fill1(s0, t0, s1);
    PathErrors1(d.url, d.pathParams, o);
  }

  lemma Shape2(d: Descriptor, o: Options, s0: string, s1: string, s2: string, t0: string, t1: string)
    requires Template(d, [s0, s1, s2])
    requires '{' !in t0 && '{' !in t1
    requires t0 == PathText(d.pathParams[0], o) && t1 == PathText(d.pathParams[1], o)
    ensures ConstructPath(d, o) ==
      PathResult(s0 + t0 + s1 + t1 + s2, ErrorsOf(d.pathParams[0], o) + ErrorsOf(d.pathParams[1], o))
  {
    Two(Texts(d.pathParams, o), t0, t1);
    ShapeUrl(d, o, [s0, s1, s2], [t0, t1]);
    Fill2(s0, t0, s1, t1, s2);
    PathErrors2(d.url, d.pathParams, o);
  }

  lemma Shape3(d: Descriptor, o: Options, s0: string, s1: string, s2: string, s3: string,
               t0: string, t1: string, t2: string)
    requires Template(d, [s0, s1, s2, s3])
    requires '{' !in t0 && '{' !in t1 && '{' !in t2
    requires t0 == PathText(d.pathParams[0], o) && t1 == PathText(d.pathParams[1], o)
    requires t2 == PathText(d.pathParams[2], o)
    ensures ConstructPath(d, o) ==
      PathResult(s0 + t0 + s1 + t1 + s2 + t2 + s3,
                 ErrorsOf(d.pathParams[0], o) + ErrorsOf(d.pathParams[1], o) + ErrorsOf(d.pathParams[2], o))
  {
    Three(Texts(d.pathParams, o), t0, t1, t2);
    ShapeUrl(d, o, [s0, s1, s2, s3], [t0, t1, t2]);
    Fill3(s0, t0, s1, t1, s2, t2, s3);
    PathErrors3(d.url, d.pathParams, o);
  }

  lemma Shape4(d: Descriptor, o: Options, s0: string, s1: string, s2: string, s3: string, s4: string,
               t0: string, t1: string, t2: string, t3: string)
    requires Template(d, [s0, s1, s2, s3, s4])
    requires '{' !in t0 && '{' !in t1 && '{' !in t2 && '{' !in t3
    requires t0 == PathText(d.pathParams[0], o) && t1 == PathText(d.pathParams[1], o)
    requires t2 == PathText(d.pathParams[2], o) && t3 == PathText(d.pathParams[3], o)
    ensures ConstructPath(d, o) ==
      PathResult(s0 + t0 + s1 + t1 + s2 + t2 + s3 + t3 + s4,
                 ErrorsOf(d.pathParams[0], o) + ErrorsOf(d.pathParams[1], o)
                   + ErrorsOf(d.pathParams[2], o) + ErrorsOf(d.pathParams[3], o))
  {
    Four(Texts(d.pathParams, o), t0, t1, t2, t3);
    ShapeUrl(d, o, [s0, s1, s2, s3, s4], [t0, t1, t2, t3]);
    Fill4(s0, t0, s1, t1, s2, t2, s3, t3, s4);
    PathErrors4(d.url, d.pathParams, o);
  }

  /** Templates: the entry's URL is `s0` followed by `rest`, and `rest` is the
      tokens with the brace-free pieces between them. */
  lemma Template1(d: Descriptor, s0: string, rest: string, s1: string)
    requires |d.pathParams| == 1 && d.url == s0 + rest
    requires rest == Token(d.pathParams[0].name) + s1
    requires '{' !in s0 && '{' !in s1
    ensures Template(d, [s0, s1])
  {
    var ps := d.pathParams;
    var segs := [s0, s1];
    assert Tokens(ps) == [Token(ps[0].name)];
    Fill1(s0, Token(ps[0].name), s1);
    forall i | 0 <= i < |segs|
      ensures '{' !in segs[i]
    {
      if i == 0 {} else {}
    }
  }

  lemma Template2(d: Descriptor, s0: string, rest: string, s1: string, s2: string)
    requires |d.pathParams| == 2 && d.url == s0 + rest
    requires rest == Token(d.pathParams[0].name) + s1 + Token(d.pathParams[1].name) + s2
    requires '{' !in s0 && '{' !in s1 && '{' !in s2
    ensures Template(d, [s0, s1, s2])
  {
    var ps := d.pathParams;
    var segs := [s0, s1, s2];
    assert Tokens(ps) == [Token(ps[0].name), Token(ps[1].name)];
    Fill2(s0, Token(ps[0].name), s1, Token(ps[1].name), s2);
    forall i | 0 <= i < |segs|
      ensures '{' !in segs[i]
    {
      if i == 0 {} else if i == 1 {} else {}
    }
  }

  lemma Template3(d: Descriptor, s0: string, rest: string, s1: string, s2: string, s3: string)
    requires |d.pathParams| == 3 && d.url == s0 + rest
    requires rest == Token(d.pathParams[0].name) + s1 + Token(d.pathParams[1].name) + s2
                       + Token(d.pathParams[2].name) + s3
    requires '{' !in s0 && '{' !in s1 && '{' !in s2 && '{' !in s3
    ensures Template(d, [s0, s1, s2, s3])
  {
    var ps := d.pathParams;
    var segs := [s0, s1, s2, s3];
    assert Tokens(ps) == [Token(ps[0].name), Token(ps[1].name), Token(ps[2].name)];
    Fill3(s0, Token(ps[0].name), s1, Token(ps[1].name), s2, Token(ps[2].name), s3);
    forall i | 0 <= i < |segs|
      ensures '{' !in segs[i]
    {
      if i == 0 {} else if i == 1 {} else if i == 2 {} else {}
    }
  }

  lemma Template4(d: Descriptor, s0: string, rest: string, s1: string, s2: string, s3: string, s4: string)
    requires |d.pathParams| == 4 && d.url == s0 + rest
    requires rest == Token(d.pathParams[0].name) + s1 + Token(d.pathParams[1].name) + s2
                       + Token(d.pathParams[2].name) + s3 + Token(d.pathParams[3].name) + s4
    requires '{' !in s0 && '{' !in s1 && '{' !in s2 && '{' !in s3 && '{' !in s4
    ensures Template(d, [s0, s1, s2, s3, s4])
  {
    var ps := d.pathParams;
    var segs := [s0, s1, s2, s3, s4];
    assert Tokens(ps) == [Token(ps[0].name), Token(ps[1].name), Token(ps[2].name), Token(ps[3].name)];
    Fill4(s0, Token(ps[0].name), s1, Token(ps[1].name), s2, Token(ps[2].name), s3, Token(ps[3].name), s4);
    forall i | 0 <= i < |segs|
      ensures '{' !in segs[i]
    {
      if i == 0 {} else if i == 1 {} else if i == 2 {} else if i == 3 {} else {}
    }
  }

  lemma Unit(x: string)
    ensures x + "" == x
  {
  }

  lemma Assoc(a: string, b: string, c: string)
    ensures a + (b + c) == a + b + c
  {
  }

  lemma BaseUrlPlain()
    ensures '{' !in BaseUrl
  {
  }

  /** A boolean switch with a false default, set to true, puts in its true text. */
  lemma SwitchOn(p: PathParam, o: Options, t: string, f: string)
    requires p.spec.entries == map["type" := Str("bool"), "default" := Bool(false), "true" := Str(t), "false" := Str(f)]
    requires p.name in o && o[p.name] == Bool(true)
    ensures PathText(p, o) == t && ErrorsOf(p, o) == []
  {
    BooleanSwitch(p, o, t, f, false);
  }

  /** A boolean switch with a false default, left out, puts in its false text. */
  lemma SwitchOff(p: PathParam, o: Options, t: string, f: string)
    requires p.spec.entries == map["type" := Str("bool"), "default" := Bool(false), "true" := Str(t), "false" := Str(f)]
    requires p.name !in o
    ensures PathText(p, o) == f && ErrorsOf(p, o) == []
  {
    BooleanSwitch(p, o, t, f, false);
  }

  /** A decimal text starts with no space and holds no brace, with or without a slash. */
  lemma DigitsPlain(y: string)
    requires IsDigits(y) && |y| > 0
    ensures !IsSpace(y[0]) && '{' !in y && '{' !in "/" + y
  {
    assert forall i :: 0 <= i < |y| ==> y[i] != '{';
  }

  /** The request is issued with exactly the path and query it was built from. */
  lemma Issued(d: Descriptor, o: Options, url: string, q: Options)
    requires ConstructPath(d, o) == PathResult(url, [])
    requires Query(d, o) == q && GroupErrors(d.requiredParams, q) == []
    ensures CallApi(d, o) == Success(HttpGet(url, q))
  {
  }

  lemma Refused(d: Descriptor, o: Options, errs: seq<Error>)
    requires ConstructPath(d, o).errors + GroupErrors(d.requiredParams, Query(d, o)) == errs
    requires errs != []
    ensures CallApi(d, o) == Failure(errs)
  {
  }

  /** The `ver` parameter left to its default resolves to the version and is not reported. */
  lemma VerDefault(version: string, o: Options)
    requires "ver" !in o && |version| > 0 && !IsSpace(version[0]) && '{' !in version
    ensures PathText(PathParam("ver", Ver(version)), o) == version
    ensures !Missing(PathParam("ver", Ver(version)), o)
    ensures ErrorsOf(PathParam("ver", Ver(version)), o) == []
  {
  }

  /** A string parameter given a non-blank string takes it, with its slash if the spec asks. */
  lemma StrGiven(p: PathParam, o: Options, v: string)
    requires !p.spec.IsBool() && p.name in o && o[p.name] == Str(v)
    requires |v| > 0 && !IsSpace(v[0])
    ensures PathText(p, o) == if p.spec.LeadingSlash() then "/" + v else v
    ensures ErrorsOf(p, o) == []
  {
  }

  /** A string parameter with no option and no usable default resolves to nothing. */
  lemma StrAbsent(p: PathParam, o: Options)
    requires !p.spec.IsBool() && p.name !in o && p.spec.Default().Nil?
    ensures PathText(p, o) == ""
    ensures ErrorsOf(p, o) == if p.spec.Required() then [MissingPathParam(p.name)] else []
  {
  }

  /** A required string parameter with an empty default is reported exactly
      when its option is blank. */
  lemma StrEmptyDefault(p: PathParam, o: Options)
    requires !p.spec.IsBool() && p.spec.Default() == Str("") && p.spec.Required()
    ensures ErrorsOf(p, o) == if Present(Lookup(o, p.name)) then [] else [MissingPathParam(p.name)]
  {
    assert Blank(PathValue(p, o)) <==> Blank(Lookup(o, p.name));
  }

  /** A string parameter given a number takes its decimal text, which is never blank. */
  lemma IntGiven(p: PathParam, o: Options, n: int)
    requires !p.spec.IsBool() && p.name in o && o[p.name] == Int(n)
    ensures PathText(p, o) == if p.spec.LeadingSlash() then "/" + IntToS(n) else IntToS(n)
    ensures ErrorsOf(p, o) == []
    ensures '{' !in IntToS(n)
  {
    IntToSPresent(n);
    var s := IntToS(n);
    var d := if n < 0 then NatToS(-n) else NatToS(n);
    assert forall i :: 0 <= i < |d| ==> d[i] != '{';
    assert s == d || s == "-" + d;
    if s == "-" + d {
      assert forall i :: 1 <= i < |s| ==> s[i] == d[i - 1];
    }
  }
}
