/**
 The engine run on transcribed entries of the endpoint table: the URL each
 entry produces, the errors it reports and the query it sends, for concrete
 option hashes and, where the claim is about every option hash, for all of
 them. URLs are written as the pieces the template and the parameters
 contribute, in order. Each entry's `*Pieces` lemma splits its literal
 template into those pieces once, so the proofs that use it do not have the
 solver take the string literal apart again.
 */
module Scenarios {
  import opened Wrappers
  import opened Values
  import opened Substitution
  import opened Endpoints
  import opened BaselineRequest
  import opened RequestProperties
  import opened Unfold

  // ---------------------------------------------------------------------------
  // awards
  // ---------------------------------------------------------------------------

  lemma AwardsPieces()
    ensures "{ver}/awards{awardId}{recipients}" ==
      Token("ver") + "/awards" + Token("awardId") + "" + Token("recipients") + ""
  {
  }

  lemma AwardsTemplate()
    ensures Template(Awards, [BaseUrl, "/awards", "", ""])
  {
    AwardsPieces();
    BaseUrlPlain();
    Template3(Awards, BaseUrl, "{ver}/awards{awardId}{recipients}", "/awards", "", "");
  }

  /** With no options the default version alone fills the template. */
  lemma AwardsEmpty(o: Options)
    requires o == map[]
    ensures CallApi(Awards, o) == Success(HttpGet(BaseUrl + "v1" + "/awards", map[]))
  {
    var ps := Awards.pathParams;
    VerDefault("v1", o);
    StrAbsent(ps[1], o);
    BooleanSwitch(ps[2], o, "/recipients", "", false);
    AwardsTemplate();
    Shape3(Awards, o, BaseUrl, "/awards", "", "", "v1", "", "");
    var u := BaseUrl + "v1" + "/awards";
    Unit(u); Unit(u + ""); Unit(u + "" + ""); Unit(u + "" + "" + "");
    QueryNone(Awards, o);
  }

  lemma AwardsRecipientsTexts(o: Options, id: string)
    requires o == map["awardId" := Str(id), "recipients" := Bool(true)]
    requires |id| > 0 && !IsSpace(id[0])
    ensures var ps := Awards.pathParams;
      && PathText(ps[0], o) == "v1" && PathText(ps[1], o) == "/" + id && PathText(ps[2], o) == "/recipients"
      && ErrorsOf(ps[0], o) == [] && ErrorsOf(ps[1], o) == [] && ErrorsOf(ps[2], o) == []
  {
    var ps := Awards.pathParams;
    VerDefault("v1", o);
    StrGiven(ps[1], o, id);
    BooleanSwitch(ps[2], o, "/recipients", "", false);
  }

  lemma AwardsRecipientsQuery(o: Options, id: string)
    requires o == map["awardId" := Str(id), "recipients" := Bool(true)]
    ensures Query(Awards, o) == map[]
  {
    WordsSlices(["sportId", "leagueId", "season", "hydrate", "fields"], "awardId");
    WordsSlices(["sportId", "leagueId", "season", "hydrate", "fields"], "recipients");
    QueryNone(Awards, o);
  }

  /** An award id gets its slash; `recipients: true` selects the recipients
      suffix; neither option is a query key. */
  lemma AwardsRecipients(o: Options, id: string)
    requires o == map["awardId" := Str(id), "recipients" := Bool(true)]
    requires |id| > 0 && !IsSpace(id[0]) && '{' !in id
    ensures CallApi(Awards, o) == Success(HttpGet(BaseUrl + "v1" + "/awards" + "/" + id + "/recipients", map[]))
  {
    AwardsRecipientsTexts(o, id);
    AwardsTemplate();
    Shape3(Awards, o, BaseUrl, "/awards", "", "", "v1", "/" + id, "/recipients");
    var u := BaseUrl + "v1" + "/awards";
    Assoc(u, "/", id);
    Unit(u + "/" + id);
    Unit(u + "/" + id + "/recipients");
    AwardsRecipientsQuery(o, id);
  }

  // ---------------------------------------------------------------------------
  // attendance
  // ---------------------------------------------------------------------------

  lemma AttendancePath(o: Options)
    requires "ver" !in o
    ensures ConstructPath(Attendance, o) == PathResult(BaseUrl + "v1" + "/attendance", [])
  {
    assert "{ver}/attendance" == Token("ver") + "/attendance";
    BaseUrlPlain();
    Template1(Attendance, BaseUrl, "{ver}/attendance", "/attendance");
    VerDefault("v1", o);
    Shape1(Attendance, o, BaseUrl, "/attendance", "v1");
  }

  lemma AttendanceMet(o: Options)
    ensures Met(["teamId", "leagueId", "leagueListId"], Query(Attendance, o)) <==>
      ("teamId" in o || "leagueId" in o || "leagueListId" in o)
  {
    var g := ["teamId", "leagueId", "leagueListId"];
    var ws := ["teamId", "leagueId", "season", "date", "leagueListId", "gameType", "fields"];
    var q := Query(Attendance, o);
    WordsSlices(ws, "teamId");
    WordsSlices(ws, "leagueId");
    WordsSlices(ws, "leagueListId");
    if "teamId" in o { assert g[0] in q; }
    if "leagueId" in o { assert g[1] in q; }
    if "leagueListId" in o { assert g[2] in q; }
  }

  /** Whatever else is given, the attendance request is issued exactly when one
      of `teamId`, `leagueId`, `leagueListId` is among the options, and is
      otherwise refused with that group alone. */
  lemma AttendanceNeedsOneOfGroup(o: Options)
    requires "ver" !in o
    ensures CallApi(Attendance, o).Success? <==> ("teamId" in o || "leagueId" in o || "leagueListId" in o)
    ensures CallApi(Attendance, o).Success? ==>
      CallApi(Attendance, o).value == HttpGet(BaseUrl + "v1" + "/attendance", Query(Attendance, o))
    ensures CallApi(Attendance, o).Failure? ==>
      CallApi(Attendance, o).error == [MissingGroup(["teamId", "leagueId", "leagueListId"])]
  {
    AttendancePath(o);
    AttendanceMet(o);
    Groups1(["teamId", "leagueId", "leagueListId"], Query(Attendance, o));
  }

  // ---------------------------------------------------------------------------
  // game_diff
  // ---------------------------------------------------------------------------

  lemma GameDiffPieces()
    ensures "{ver}/game/{gamePk}/feed/live/diffPatch" ==
      Token("ver") + "/game/" + Token("gamePk") + "/feed/live/diffPatch"
  {
  }

  lemma GameDiffTemplate()
    ensures Template(GameDiff, [BaseUrl, "/game/", "/feed/live/diffPatch"])
  {
    GameDiffPieces();
    BaseUrlPlain();
    Template2(GameDiff, BaseUrl, "{ver}/game/{gamePk}/feed/live/diffPatch", "/game/", "/feed/live/diffPatch");
  }

  /** The URL for game `id`, and no path error, whatever the time codes. */
  lemma GameDiffPath(o: Options, id: string)
    requires "ver" !in o && "gamePk" in o && o["gamePk"] == Str(id)
    requires |id| > 0 && !IsSpace(id[0]) && '{' !in id
    ensures ConstructPath(GameDiff, o) == PathResult(BaseUrl + "v1.1" + "/game/" + id + "/feed/live/diffPatch", [])
  {
    var ps := GameDiff.pathParams;
    VerDefault("v1.1", o);
    StrGiven(ps[1], o, id);
    GameDiffTemplate();
    Shape2(GameDiff, o, BaseUrl, "/game/", "/feed/live/diffPatch", "v1.1", id);
  }

  lemma GameDiffGroups(o: Options)
    ensures GroupErrors(GameDiff.requiredParams, Query(GameDiff, o)) ==
      (if "startTimecode" in o then [] else [MissingGroup(["startTimecode"])])
      + (if "endTimecode" in o then [] else [MissingGroup(["endTimecode"])])
  {
    var q := Query(GameDiff, o);
    WordsSlices(["startTimecode", "endTimecode"], "startTimecode");
    WordsSlices(["startTimecode", "endTimecode"], "endTimecode");
    assert Met(["startTimecode"], q) <==> "startTimecode" in o by {
      if "startTimecode" in o { assert ["startTimecode"][0] in q; }
    }
    assert Met(["endTimecode"], q) <==> "endTimecode" in o by {
      if "endTimecode" in o { assert ["endTimecode"][0] in q; }
    }
    Groups2(["startTimecode"], ["endTimecode"], q);
  }

  lemma GameDiffQuery(o: Options, id: string, start: Value, end: Value)
    requires o == map["gamePk" := Str(id), "startTimecode" := start, "endTimecode" := end]
    ensures Query(GameDiff, o) == map["startTimecode" := start, "endTimecode" := end]
  {
    WordsSlices(["startTimecode", "endTimecode"], "gamePk");
    WordsSlices(["startTimecode", "endTimecode"], "startTimecode");
    WordsSlices(["startTimecode", "endTimecode"], "endTimecode");
  }

  /** A game and both time codes: the diff request goes to the v1.1 URL with
      the two time codes, and only they, as its query. */
  lemma GameDiffIssued(o: Options, id: string, start: Value, end: Value)
    requires o == map["gamePk" := Str(id), "startTimecode" := start, "endTimecode" := end]
    requires |id| > 0 && !IsSpace(id[0]) && '{' !in id
    ensures CallApi(GameDiff, o) ==
      Success(HttpGet(BaseUrl + "v1.1" + "/game/" + id + "/feed/live/diffPatch",
                      map["startTimecode" := start, "endTimecode" := end]))
  {
    GameDiffPath(o, id);
    GameDiffGroups(o);
    GameDiffQuery(o, id, start, end);
  }

  /** Each of the two single-key groups is checked on its own. */
  lemma GameDiffMissingEnd(o: Options, id: string, start: Value)
    requires o == map["gamePk" := Str(id), "startTimecode" := start]
    requires |id| > 0 && !IsSpace(id[0]) && '{' !in id
    ensures CallApi(GameDiff, o).Failure? && CallApi(GameDiff, o).error == [MissingGroup(["endTimecode"])]
  {
    GameDiffPath(o, id);
    GameDiffGroups(o);
    assert "startTimecode" in o && "endTimecode" !in o;
    Refused(GameDiff, o, [] + [MissingGroup(["endTimecode"])]);
  }

  lemma GameDiffNoGameErrors(o: Options)
    requires "ver" !in o && "gamePk" !in o
    ensures ConstructPath(GameDiff, o).errors == [MissingPathParam("gamePk")]
  {
    var ps := GameDiff.pathParams;
    VerDefault("v1.1", o);
    StrEmptyDefault(ps[1], o);
    PathErrors2(GameDiff.url, ps, o);
  }

  /** Without a game, the empty default of `gamePk` is reported, before the unmet group. */
  lemma GameDiffMissingGameAndEnd(o: Options, start: Value)
    requires o == map["startTimecode" := start]
    ensures CallApi(GameDiff, o).Failure?
    ensures CallApi(GameDiff, o).error == [MissingPathParam("gamePk"), MissingGroup(["endTimecode"])]
  {
    GameDiffNoGameErrors(o);
    GameDiffGroups(o);
    assert "startTimecode" in o && "endTimecode" !in o;
    Refused(GameDiff, o, [MissingPathParam("gamePk")] + [MissingGroup(["endTimecode"])]);
  }

  // ---------------------------------------------------------------------------
  // person
  // ---------------------------------------------------------------------------

  lemma PersonPieces()
    ensures "{ver}/people/{personId}" == Token("ver") + "/people/" + Token("personId") + ""
  {
  }

  lemma PersonTemplate()
    ensures Template(Person, [BaseUrl, "/people/", ""])
  {
    PersonPieces();
    BaseUrlPlain();
    Template2(Person, BaseUrl, "{ver}/people/{personId}", "/people/", "");
  }

  lemma PersonIdPath(o: Options, id: string)
    requires o == map["personId" := Str(id)]
    requires |id| > 0 && !IsSpace(id[0]) && '{' !in id
    ensures ConstructPath(Person, o) == PathResult(BaseUrl + "v1" + "/people/" + id, [])
  {
    var ps := Person.pathParams;
    VerDefault("v1", o);
    StrGiven(ps[1], o, id);
    PersonTemplate();
    Shape2(Person, o, BaseUrl, "/people/", "", "v1", id);
    Unit(BaseUrl + "v1" + "/people/" + id);
  }

  /** A person id given as a string is put after `people/`. */
  lemma PersonById(o: Options, id: string)
    requires o == map["personId" := Str(id)]
    requires |id| > 0 && !IsSpace(id[0]) && '{' !in id
    ensures CallApi(Person, o) == Success(HttpGet(BaseUrl + "v1" + "/people/" + id, map[]))
  {
    PersonIdPath(o, id);
    WordsSlices(["hydrate", "fields"], "personId");
    QueryNone(Person, o);
    Issued(Person, o, BaseUrl + "v1" + "/people/" + id, map[]);
  }

  lemma PersonNumberPath(o: Options, n: int)
    requires o == map["personId" := Int(n)]
    ensures ConstructPath(Person, o) == PathResult(BaseUrl + "v1" + "/people/" + IntToS(n), [])
  {
    var ps := Person.pathParams;
    VerDefault("v1", o);
    IntGiven(ps[1], o, n);
    PersonTemplate();
    Shape2(Person, o, BaseUrl, "/people/", "", "v1", IntToS(n));
    Unit(BaseUrl + "v1" + "/people/" + IntToS(n));
  }

  /** A person id given as a number is put in as its decimal text. */
  lemma PersonByNumber(o: Options, n: int)
    requires o == map["personId" := Int(n)]
    ensures CallApi(Person, o) == Success(HttpGet(BaseUrl + "v1" + "/people/" + IntToS(n), map[]))
  {
    PersonNumberPath(o, n);
    WordsSlices(["hydrate", "fields"], "personId");
    QueryNone(Person, o);
    Issued(Person, o, BaseUrl + "v1" + "/people/" + IntToS(n), map[]);
  }

  /** Without a person id the URL ends in `people/` and the id is reported missing. */
  lemma PersonWithoutId(o: Options)
    requires "ver" !in o && "personId" !in o
    ensures ConstructPath(Person, o).url == BaseUrl + "v1" + "/people/"
    ensures ConstructPath(Person, o).errors == [MissingPathParam("personId")]
    ensures CallApi(Person, o).Failure? && CallApi(Person, o).error == [MissingPathParam("personId")]
  {
    var ps := Person.pathParams;
    VerDefault("v1", o);
    StrAbsent(ps[1], o);
    PersonTemplate();
    Shape2(Person, o, BaseUrl, "/people/", "", "v1", "");
    Unit(BaseUrl + "v1" + "/people/");
    Unit(BaseUrl + "v1" + "/people/" + "");
  }

  // ---------------------------------------------------------------------------
  // person_game_stats
  // ---------------------------------------------------------------------------

  lemma PersonGameStatsPieces()
    ensures "{ver}/people/{personId}/stats/game/{gamePk}" ==
      Token("ver") + "/people/" + Token("personId") + "/stats/game/" + Token("gamePk") + ""
  {
  }

  lemma PersonGameStatsTemplate()
    ensures Template(PersonGameStats, [BaseUrl, "/people/", "/stats/game/", ""])
  {
    PersonGameStatsPieces();
    BaseUrlPlain();
    Template3(PersonGameStats, BaseUrl, "{ver}/people/{personId}/stats/game/{gamePk}", "/people/", "/stats/game/", "");
  }

  /** The string `query_params` keeps the one key "fields". */
  lemma PersonGameStatsQuery(o: Options)
    ensures Query(PersonGameStats, o) == if "fields" in o then map["fields" := o["fields"]] else map[]
  {
  }

  lemma PersonGameStatsCurrentTexts(o: Options, id: string)
    requires o == map["personId" := Str(id)]
    requires |id| > 0 && !IsSpace(id[0])
    ensures var ps := PersonGameStats.pathParams;
      && PathText(ps[0], o) == "v1" && PathText(ps[1], o) == id && PathText(ps[2], o) == "current"
      && ErrorsOf(ps[0], o) == [] && ErrorsOf(ps[1], o) == [] && ErrorsOf(ps[2], o) == []
  {
    var ps := PersonGameStats.pathParams;
    VerDefault("v1", o);
    StrGiven(ps[1], o, id);
    assert !IsSpace("current"[0]);
  }

  /** Left out, `gamePk` takes its default "current". */
  lemma PersonGameStatsCurrent(o: Options, id: string)
    requires o == map["personId" := Str(id)]
    requires |id| > 0 && !IsSpace(id[0]) && '{' !in id
    ensures CallApi(PersonGameStats, o) ==
      Success(HttpGet(BaseUrl + "v1" + "/people/" + id + "/stats/game/" + "current", map[]))
  {
    PersonGameStatsCurrentTexts(o, id);
    PersonGameStatsTemplate();
    Shape3(PersonGameStats, o, BaseUrl, "/people/", "/stats/game/", "", "v1", id, "current");
    Unit(BaseUrl + "v1" + "/people/" + id + "/stats/game/" + "current");
    PersonGameStatsQuery(o);
  }

  lemma PersonGameStatsEmptyGameTexts(o: Options, id: string)
    requires o == map["personId" := Str(id), "gamePk" := Str("")]
    requires |id| > 0 && !IsSpace(id[0])
    ensures var ps := PersonGameStats.pathParams;
      && PathText(ps[0], o) == "v1" && PathText(ps[1], o) == id && PathText(ps[2], o) == ""
      && ErrorsOf(ps[0], o) == [] && ErrorsOf(ps[1], o) == [] && ErrorsOf(ps[2], o) == [MissingPathParam("gamePk")]
  {
    var ps := PersonGameStats.pathParams;
    VerDefault("v1", o);
    StrGiven(ps[1], o, id);
    EmptyStringKept(ps[2], o);
  }

  lemma PersonGameStatsEmptyGamePath(o: Options, id: string)
    requires o == map["personId" := Str(id), "gamePk" := Str("")]
    requires |id| > 0 && !IsSpace(id[0]) && '{' !in id
    ensures ConstructPath(PersonGameStats, o) ==
      PathResult(BaseUrl + "v1" + "/people/" + id + "/stats/game/" + "" + "", [MissingPathParam("gamePk")])
  {
    PersonGameStatsEmptyGameTexts(o, id);
    PersonGameStatsTemplate();
    Shape3(PersonGameStats, o, BaseUrl, "/people/", "/stats/game/", "", "v1", id, "");
  }

  /** An empty `gamePk` is taken as given, since "" is truthy, and then
      reported blank although the default is not. */
  lemma PersonGameStatsEmptyGame(o: Options, id: string)
    requires o == map["personId" := Str(id), "gamePk" := Str("")]
    requires |id| > 0 && !IsSpace(id[0]) && '{' !in id
    ensures ConstructPath(PersonGameStats, o).url == BaseUrl + "v1" + "/people/" + id + "/stats/game/"
    ensures ConstructPath(PersonGameStats, o).errors == [MissingPathParam("gamePk")]
    ensures CallApi(PersonGameStats, o).Failure?
    ensures CallApi(PersonGameStats, o).error == [MissingPathParam("gamePk")]
  {
    PersonGameStatsEmptyGamePath(o, id);
    Unit(BaseUrl + "v1" + "/people/" + id + "/stats/game/");
    Unit(BaseUrl + "v1" + "/people/" + id + "/stats/game/" + "");
  }

  /** `params` raises on this entry, so no option can ever be set on it. */
  lemma PersonGameStatsSetOptionFails(req: Request, key: string, value: Value, overwrite: bool)
    requires req.info == PersonGameStats
    ensures SetOption(req, key, value, overwrite) == Failure(NoImplicitConversion)
  {
  }

  // ---------------------------------------------------------------------------
  // seasons
  // ---------------------------------------------------------------------------

  lemma SeasonsPieces()
    ensures "{ver}/seasons{all}" == Token("ver") + "/seasons" + Token("all") + ""
  {
  }

  lemma SeasonsTemplate()
    ensures Template(Seasons, [BaseUrl, "/seasons", ""])
  {
    SeasonsPieces();
    BaseUrlPlain();
    Template2(Seasons, BaseUrl, "{ver}/seasons{all}", "/seasons", "");
  }

  /** `all` is never reported; its option's string form picks the suffix:
      "true" gives "/all", "type" picks the entry's own type name, anything
      else the empty false text. */
  lemma SeasonsAllSwitch(o: Options)
    requires "ver" !in o
    ensures var s := ToS(Lookup(o, "all"));
      ConstructPath(Seasons, o) ==
        PathResult(BaseUrl + "v1" + "/seasons" + (if s == "true" then "/all" else if s == "type" then "bool" else ""), [])
  {
    var ps := Seasons.pathParams;
    var s := ToS(Lookup(o, "all"));
    var t := if s == "true" then "/all" else if s == "type" then "bool" else "";
    VerDefault("v1", o);
    BooleanSwitch(ps[1], o, "/all", "", false);
    SeasonsTemplate();
    Shape2(Seasons, o, BaseUrl, "/seasons", "", "v1", t);
    Unit(BaseUrl + "v1" + "/seasons" + t);
  }

  lemma SeasonsMet(o: Options)
    ensures Met(["sportId", "divisionId", "leagueId"], Query(Seasons, o)) <==>
      ("sportId" in o || "divisionId" in o || "leagueId" in o)
  {
    var g := ["sportId", "divisionId", "leagueId"];
    var ws := ["season", "sportId", "divisionId", "leagueId", "fields"];
    var q := Query(Seasons, o);
    WordsSlices(ws, "sportId");
    WordsSlices(ws, "divisionId");
    WordsSlices(ws, "leagueId");
    if "sportId" in o { assert g[0] in q; }
    if "divisionId" in o { assert g[1] in q; }
    if "leagueId" in o { assert g[2] in q; }
  }

  /** The group applies with or without `all`: the request is issued exactly
      when one of `sportId`, `divisionId`, `leagueId` is given. */
  lemma SeasonsNeedsOneOfGroup(o: Options)
    requires "ver" !in o
    ensures CallApi(Seasons, o).Success? <==> ("sportId" in o || "divisionId" in o || "leagueId" in o)
    ensures CallApi(Seasons, o).Failure? ==>
      CallApi(Seasons, o).error == [MissingGroup(["sportId", "divisionId", "leagueId"])]
  {
    SeasonsAllSwitch(o);
    SeasonsMet(o);
    Groups1(["sportId", "divisionId", "leagueId"], Query(Seasons, o));
  }

  // ---------------------------------------------------------------------------
  // season
  // ---------------------------------------------------------------------------

  lemma SeasonPieces()
    ensures "{ver}/seasons/{season}" == Token("ver") + "/seasons/" + Token("season") + ""
  {
  }

  lemma SeasonTemplate()
    ensures Template(Season, [BaseUrl, "/seasons/", ""])
  {
    SeasonPieces();
    BaseUrlPlain();
    Template2(Season, BaseUrl, "{ver}/seasons/{season}", "/seasons/", "");
  }

  lemma SeasonOmittedPath(o: Options)
    requires "ver" !in o && "season" !in o
    ensures ConstructPath(Season, o) ==
      PathResult(BaseUrl + "v1" + "/seasons/" + "false", [MissingPathParam("season")])
  {
    var ps := Season.pathParams;
    VerDefault("v1", o);
    assert PathText(ps[1], o) == "false" by {
      assert !IsSpace("false"[0]);
    }
    assert ErrorsOf(ps[1], o) == [MissingPathParam("season")];
    SeasonTemplate();
    Shape2(Season, o, BaseUrl, "/seasons/", "", "v1", "false");
    Unit(BaseUrl + "v1" + "/seasons/" + "false");
  }

  lemma SeasonGroups(o: Options)
    ensures GroupErrors(Season.requiredParams, Query(Season, o)) ==
      if "sportId" in o then [] else [MissingGroup(["sportId"])]
  {
    var q := Query(Season, o);
    WordsSlices(["sportId", "fields"], "sportId");
    assert Met(["sportId"], q) <==> "sportId" in o by {
      if "sportId" in o { assert ["sportId"][0] in q; }
    }
    Groups1(["sportId"], q);
  }

  /** Without a season the default `false` is blank, so it is reported, but it
      stringifies to "false", which is what the URL ends in. */
  lemma SeasonOmitted(o: Options)
    requires "ver" !in o && "season" !in o
    ensures ConstructPath(Season, o).url == BaseUrl + "v1" + "/seasons/" + "false"
    ensures ConstructPath(Season, o).errors == [MissingPathParam("season")]
    ensures CallApi(Season, o).Failure?
    ensures CallApi(Season, o).error ==
      [MissingPathParam("season")] + (if "sportId" in o then [] else [MissingGroup(["sportId"])])
  {
    SeasonOmittedPath(o);
    SeasonGroups(o);
  }

  // ---------------------------------------------------------------------------
  // teams
  // ---------------------------------------------------------------------------

  lemma TeamsTemplate()
    ensures Template(Teams, [BaseUrl, "/teams"])
  {
    assert "{ver}/teams" == Token("ver") + "/teams";
    BaseUrlPlain();
    Template1(Teams, BaseUrl, "{ver}/teams", "/teams");
  }

  /** The nested array never equals an option key: nothing is ever sent as a
      query, and the request is always issued. */
  lemma TeamsIgnoresQuery(o: Options)
    requires "ver" !in o
    ensures Query(Teams, o) == map[]
    ensures CallApi(Teams, o) == Success(HttpGet(BaseUrl + "v1" + "/teams", map[]))
  {
    VerDefault("v1", o);
    TeamsTemplate();
    Shape1(Teams, o, BaseUrl, "/teams", "v1");
    QueryNone(Teams, o);
  }

  /** Only `ver` can be set on it. */
  lemma TeamsSetOption(req: Request, key: string, value: Value, overwrite: bool)
    requires req.info == Teams
    ensures SetOption(req, key, value, overwrite).Success? <==> key == "ver"
  {
    assert Names(Teams.pathParams) == ["ver"];
  }

  // ---------------------------------------------------------------------------
  // people_free_agents
  // ---------------------------------------------------------------------------

  lemma PeopleFreeAgentsPieces()
    ensures "{ver}/people/freeAgents" == Token("ver") + "/people/freeAgents"
    ensures '{' !in "v1" + "/people/freeAgents"
  {
  }

  lemma PeopleFreeAgentsUrl(o: Options)
    requires "ver" !in o
    ensures ConstructPath(PeopleFreeAgents, o).url == BaseUrl + "v1" + "/people/freeAgents"
  {
    var d := PeopleFreeAgents;
    var ps := d.pathParams;
    var after := BaseUrl + "v1" + "/people/freeAgents";
    PeopleFreeAgentsPieces();
    BaseUrlPlain();
    Assoc(BaseUrl, Token("ver"), "/people/freeAgents");
    VerDefault("v1", o);
    assert ps[..0] == [];
    WalkLastUrl(d.url, ps, o, 1);
    SubFirstToken(BaseUrl, Token("ver"), "/people/freeAgents", "v1");
    Assoc(BaseUrl, "v1", "/people/freeAgents");
    assert '{' !in after;
    WalkLastUrl(d.url, ps, o, 2);
    assert ps[..2] == ps;
    SubAbsent(after, Token("leagueId"), PathText(ps[1], o));
  }

  lemma PeopleFreeAgentsErrors(o: Options)
    requires "ver" !in o
    ensures ConstructPath(PeopleFreeAgents, o).errors ==
      if Present(Lookup(o, "leagueId")) then [] else [MissingPathParam("leagueId")]
  {
    var ps := PeopleFreeAgents.pathParams;
    VerDefault("v1", o);
    StrEmptyDefault(ps[1], o);
    PathErrors2(PeopleFreeAgents.url, ps, o);
  }

  /** The URL has no `{leagueId}`, so the declared `leagueId` never reaches it,
      yet it is still reported when blank. */
  lemma PeopleFreeAgentsPath(o: Options)
    requires "ver" !in o
    ensures ConstructPath(PeopleFreeAgents, o).url == BaseUrl + "v1" + "/people/freeAgents"
    ensures ConstructPath(PeopleFreeAgents, o).errors ==
      if Present(Lookup(o, "leagueId")) then [] else [MissingPathParam("leagueId")]
  {
    PeopleFreeAgentsUrl(o);
    PeopleFreeAgentsErrors(o);
  }

  lemma PeopleFreeAgentsQuery(o: Options)
    ensures "leagueId" !in Query(PeopleFreeAgents, o)
    ensures GroupErrors(PeopleFreeAgents.requiredParams, Query(PeopleFreeAgents, o)) ==
      if "season" in o then [] else [MissingGroup(["season"])]
  {
    var ws := ["order", "hydrate", "fields", "season"];
    var q := Query(PeopleFreeAgents, o);
    WordsSlices(ws, "leagueId");
    WordsSlices(ws, "season");
    assert Met(["season"], q) <==> "season" in o by {
      if "season" in o { assert ["season"][0] in q; }
    }
    Groups1(["season"], q);
  }

  /** The request is issued exactly when `leagueId` is present and `season`
      is given; `leagueId` itself is never part of the query. */
  lemma PeopleFreeAgentsGate(o: Options)
    requires "ver" !in o
    ensures "leagueId" !in Query(PeopleFreeAgents, o)
    ensures CallApi(PeopleFreeAgents, o).Success? <==> Present(Lookup(o, "leagueId")) && "season" in o
    ensures CallApi(PeopleFreeAgents, o).Success? ==>
      CallApi(PeopleFreeAgents, o).value.url == BaseUrl + "v1" + "/people/freeAgents"
  {
    PeopleFreeAgentsPath(o);
    PeopleFreeAgentsQuery(o);
  }

  // ---------------------------------------------------------------------------
  // draft
  // ---------------------------------------------------------------------------

  lemma DraftPieces()
    ensures "{ver}/draft{prospects}{year}{latest}" ==
      Token("ver") + "/draft" + Token("prospects") + "" + Token("year") + "" + Token("latest") + ""
  {
  }

  lemma DraftTemplate(y: string)
    ensures Template(DraftFor(y), [BaseUrl, "/draft", "", "", ""])
  {
    DraftPieces();
    BaseUrlPlain();
    Template4(DraftFor(y), BaseUrl, "{ver}/draft{prospects}{year}{latest}", "/draft", "", "", "");
  }

  /** A left-out year takes the default year text, after a slash. */
  lemma DraftYearText(y: string, o: Options)
    requires IsDigits(y) && |y| > 0
    requires "year" !in o
    ensures PathText(DraftFor(y).pathParams[2], o) == "/" + y
    ensures ErrorsOf(DraftFor(y).pathParams[2], o) == []
    ensures '{' !in "/" + y
  {
    DigitsPlain(y);
  }

  lemma DraftDefaultTexts(y: string, o: Options)
    requires o == map[]
    ensures var ps := DraftFor(y).pathParams;
      && PathText(ps[0], o) == "v1" && PathText(ps[1], o) == "" && PathText(ps[3], o) == ""
      && ErrorsOf(ps[0], o) == [] && ErrorsOf(ps[1], o) == [] && ErrorsOf(ps[3], o) == []
  {
    var ps := DraftFor(y).pathParams;
    VerDefault("v1", o);
    SwitchOff(ps[1], o, "/prospects", "");
    SwitchOff(ps[3], o, "/latest", "");
  }

  lemma DraftDefaultFor(y: string, o: Options)
    requires IsDigits(y) && |y| > 0
    requires o == map[]
    ensures CallApi(DraftFor(y), o) == Success(HttpGet(BaseUrl + "v1" + "/draft" + "/" + y, map[]))
  {
    var t := "/" + y;
    DraftDefaultTexts(y, o);
    DraftYearText(y, o);
    DraftTemplate(y);
    Shape4(DraftFor(y), o, BaseUrl, "/draft", "", "", "", "v1", "", t, "");
    var u := BaseUrl + "v1" + "/draft";
    Unit(u); Unit(u + ""); Unit(u + "" + ""); Unit(u + t); Unit(u + t + "");
    Assoc(u, "/", y);
    QueryNone(DraftFor(y), o);
  }

  /** With no options the year defaults to the current one, after a slash. */
  lemma DraftDefault(year: nat, o: Options)
    requires o == map[]
    ensures CallApi(Draft(year), o) == Success(HttpGet(BaseUrl + "v1" + "/draft" + "/" + NatToS(year), map[]))
  {
    DraftDefaultFor(NatToS(year), o);
  }

  lemma DraftBothTexts(y: string, o: Options)
    requires o == map["prospects" := Bool(true), "latest" := Bool(true)]
    ensures var ps := DraftFor(y).pathParams;
      && PathText(ps[1], o) == "/prospects" && PathText(ps[3], o) == "/latest"
      && ErrorsOf(ps[1], o) == [] && ErrorsOf(ps[3], o) == []
  {
    var ps := DraftFor(y).pathParams;
    SwitchOn(ps[1], o, "/prospects", "");
    SwitchOn(ps[3], o, "/latest", "");
  }

  lemma DraftSuffixesPlain()
    ensures '{' !in "/prospects" && '{' !in "/latest"
  {
  }

  lemma DraftBothPath(y: string, o: Options)
    requires IsDigits(y) && |y| > 0
    requires o == map["prospects" := Bool(true), "latest" := Bool(true)]
    ensures ConstructPath(DraftFor(y), o) ==
      PathResult(BaseUrl + "v1" + "/draft" + "/prospects" + "" + ("/" + y) + "" + "/latest" + "", [])
  {
    VerDefault("v1", o);
    DraftBothTexts(y, o);
    DraftSuffixesPlain();
    DraftYearText(y, o);
    DraftTemplate(y);
    Shape4(DraftFor(y), o, BaseUrl, "/draft", "", "", "", "v1", "/prospects", "/" + y, "/latest");
  }

  lemma DraftBothQuery(y: string, o: Options)
    requires o == map["prospects" := Bool(true), "latest" := Bool(true)]
    ensures Query(DraftFor(y), o) == map[]
  {
    var ws := ["limit", "fields", "round", "name", "school", "state", "country", "position",
               "teamId", "playerId", "bisPlayerId"];
    WordsSlices(ws, "prospects");
    WordsSlices(ws, "latest");
    QueryNone(DraftFor(y), o);
  }

  lemma DraftBothFor(y: string, o: Options)
    requires IsDigits(y) && |y| > 0
    requires o == map["prospects" := Bool(true), "latest" := Bool(true)]
    ensures CallApi(DraftFor(y), o) ==
      Success(HttpGet(BaseUrl + "v1" + "/draft" + "/prospects" + "/" + y + "/latest", map[]))
  {
    var u := BaseUrl + "v1" + "/draft" + "/prospects";
    DraftBothPath(y, o);
    Unit(u);
    Assoc(u, "/", y);
    Unit(u + "/" + y);
    Unit(u + "/" + y + "/latest");
    DraftBothQuery(y, o);
  }

  /** Nothing keeps `prospects` and `latest` apart: both suffixes are put in. */
  lemma DraftProspectsAndLatest(year: nat, o: Options)
    requires o == map["prospects" := Bool(true), "latest" := Bool(true)]
    ensures CallApi(Draft(year), o) ==
      Success(HttpGet(BaseUrl + "v1" + "/draft" + "/prospects" + "/" + NatToS(year) + "/latest", map[]))
  {
    DraftBothFor(NatToS(year), o);
  }

  // ---------------------------------------------------------------------------
  // ver, across the table
  // ---------------------------------------------------------------------------

  /** The entry declares `ver` first, as a required string with the default
      "v1" or "v1.1", and no other parameter of that name. */
  predicate VerLed(d: Descriptor)
  {
    && |d.pathParams| > 0
    && d.pathParams[0].name == "ver"
    && (d.pathParams[0].spec == Ver("v1") || d.pathParams[0].spec == Ver("v1.1"))
    && forall i :: 1 <= i < |d.pathParams| ==> d.pathParams[i].name != "ver"
  }

  lemma EntriesVerLed(year: nat)
    ensures VerLed(Attendance) && VerLed(Awards) && VerLed(Draft(year)) && VerLed(GameDiff)
    ensures VerLed(PeopleFreeAgents) && VerLed(Person) && VerLed(PersonGameStats)
    ensures VerLed(Seasons) && VerLed(Season) && VerLed(Teams)
  {
  }

  /** Every transcribed entry leads with `ver`. */
  lemma RegistryVerLed(year: nat, name: string)
    requires name in Registry(year)
    ensures VerLed(Registry(year)[name])
  {
    EntriesVerLed(year);
  }

  /** Left out, `ver` takes its non-blank default and is never reported, on
      any endpoint of the table, whatever else is missing. */
  lemma VerNeverMissing(year: nat, name: string, o: Options)
    requires name in Registry(year) && "ver" !in o
    ensures var d := Registry(year)[name];
      && PathText(d.pathParams[0], o) in {"v1", "v1.1"}
      && MissingPathParam("ver") !in ConstructPath(d, o).errors
  {
    var d := Registry(year)[name];
    RegistryVerLed(year, name);
    var ps := d.pathParams;
    if ps[0].spec == Ver("v1") { VerDefault("v1", o); } else { VerDefault("v1.1", o); }
    NotMissingNotReported(d.url, ps, o, "ver");
  }

  /** An explicitly blank `ver` is not replaced by the default and is the
      first error reported. */
  lemma VerBlankReportedFirst(year: nat, name: string, o: Options)
    requires name in Registry(year) && "ver" in o && o["ver"] == Str("")
    ensures var errs := ConstructPath(Registry(year)[name], o).errors;
      |errs| > 0 && errs[0] == MissingPathParam("ver")
  {
    var d := Registry(year)[name];
    RegistryVerLed(year, name);
    EmptyStringKept(d.pathParams[0], o);
    FirstMissingReportedFirst(d.url, d.pathParams, o);
  }
}
