/**
 The shape of an endpoint entry of `BaselineEndpoints::ENDPOINTS` and a
 transcription of the entries the scenario lemmas use.
 */
module Endpoints {
  import opened Values

  /** One entry of an endpoint's `path_params` hash. It is kept as the hash
      itself: the boolean kind looks up an arbitrary key of it (the caller's
      option in string form), so its keys are data, not fixed fields. */
  datatype ParamSpec = ParamSpec(entries: map<string, Value>) {

    function At(key: string): Value
    {
      Lookup(entries, key)
    }

    /** A spec whose type entry is the string "bool" is a switch; every other spec
        is resolved as a string parameter. */
    predicate IsBool()
    {
      At("type") == Str("bool")
    }

    function Default(): Value
    {
      At("default")
    }

    predicate Required()
    {
      Truthy(At("required"))
    }

    predicate LeadingSlash()
    {
      Truthy(At("leading_slash"))
    }
  }

  /** A placeholder name with its spec, in the hash's declaration order. */
  datatype PathParam = PathParam(name: string, spec: ParamSpec)

  /** An element of a `query_params` array: a name, or (as in `teams`) a nested array. */
  datatype QueryItem = Name(name: string) | Nested(names: seq<string>)

  /** `query_params` is an array almost everywhere; `person_game_stats` has the
      plain string that `%[fields]` denotes. */
  datatype QueryParams = Listed(items: seq<QueryItem>) | Text(text: string)

  datatype Descriptor = Descriptor(
    url: string,
    pathParams: seq<PathParam>,
    queryParams: QueryParams,
    requiredParams: seq<seq<string>>)

  /** The placeholder names, `path_params.keys`. */
  function Names(ps: seq<PathParam>): (names: seq<string>)
    ensures |names| == |ps|
    ensures forall i :: 0 <= i < |ps| ==> names[i] == ps[i].name
  {
    seq(|ps|, i requires 0 <= i < |ps| => ps[i].name)
  }

  /** `%w[a b c]`: an array of plain names. */
  function Words(ws: seq<string>): (q: QueryParams)
    ensures q.Listed? && |q.items| == |ws|
    ensures forall i :: 0 <= i < |ws| ==> q.items[i] == Name(ws[i])
  {
    Listed(seq(|ws|, i requires 0 <= i < |ws| => Name(ws[i])))
  }

  const BaseUrl := "https://statsapi.mlb.com/api/"

  /** The `ver` parameter every endpoint declares first. */
  function Ver(version: string): ParamSpec
  {
    ParamSpec(map["type" := Str("str"), "default" := Str(version), "required" := Bool(true)])
  }

  const Attendance := Descriptor(
    BaseUrl + "{ver}/attendance",
    [PathParam("ver", Ver("v1"))],
    Words(["teamId", "leagueId", "season", "date", "leagueListId", "gameType", "fields"]),
    [["teamId", "leagueId", "leagueListId"]])

  const Awards := Descriptor(
    BaseUrl + "{ver}/awards{awardId}{recipients}",
    [ PathParam("ver", Ver("v1")),
      PathParam("awardId", ParamSpec(map["type" := Str("str"), "default" := Nil, "leading_slash" := Bool(true)])),
      PathParam("recipients", ParamSpec(map["type" := Str("bool"), "default" := Bool(false),
                                            "true" := Str("/recipients"), "false" := Str("")]))],
    Words(["sportId", "leagueId", "season", "hydrate", "fields"]),
    [])

  /** `draft`; the year default is the current year at load time, a parameter here. */
  function Draft(currentYear: nat): Descriptor
  {
    DraftFor(NatToS(currentYear))
  }

  /** `draft` with the year default given as its text. */
  function DraftFor(yearText: string): Descriptor
  {
    Descriptor(
      BaseUrl + "{ver}/draft{prospects}{year}{latest}",
      [ PathParam("ver", Ver("v1")),
        PathParam("prospects", ParamSpec(map["type" := Str("bool"), "default" := Bool(false),
                                             "true" := Str("/prospects"), "false" := Str("")])),
        PathParam("year", ParamSpec(map["type" := Str("str"), "default" := Str(yearText),
                                        "leading_slash" := Bool(true), "required" := Bool(true)])),
        PathParam("latest", ParamSpec(map["type" := Str("bool"), "default" := Bool(false),
                                          "true" := Str("/latest"), "false" := Str("")]))],
      Words(["limit", "fields", "round", "name", "school", "state", "country", "position",
             "teamId", "playerId", "bisPlayerId"]),
      [])
  }

  const GameDiff := Descriptor(
    BaseUrl + "{ver}/game/{gamePk}/feed/live/diffPatch",
    [ PathParam("ver", Ver("v1.1")),
      PathParam("gamePk", ParamSpec(map["type" := Str("str"), "default" := Str(""), "required" := Bool(true)]))],
    Words(["startTimecode", "endTimecode"]),
    [["startTimecode"], ["endTimecode"]])

  /** Declares `leagueId` although its URL has no `{leagueId}` token. */
  const PeopleFreeAgents := Descriptor(
    BaseUrl + "{ver}/people/freeAgents",
    [ PathParam("ver", Ver("v1")),
      PathParam("leagueId", ParamSpec(map["type" := Str("str"), "default" := Str(""), "required" := Bool(true)]))],
    Words(["order", "hydrate", "fields", "season"]),
    [["season"]])

  const Person := Descriptor(
    BaseUrl + "{ver}/people/{personId}",
    [ PathParam("ver", Ver("v1")),
      PathParam("personId", ParamSpec(map["type" := Str("str"), "default" := Nil, "required" := Bool(true)]))],
    Words(["hydrate", "fields"]),
    [])

  /** Its `query_params` is the string "fields", not an array. */
  const PersonGameStats := Descriptor(
    BaseUrl + "{ver}/people/{personId}/stats/game/{gamePk}",
    [ PathParam("ver", Ver("v1")),
      PathParam("personId", ParamSpec(map["type" := Str("str"), "default" := Nil, "required" := Bool(true)])),
      PathParam("gamePk", ParamSpec(map["type" := Str("str"), "default" := Str("current"), "required" := Bool(true)]))],
    Text("fields"),
    [])

  const Seasons := Descriptor(
    BaseUrl + "{ver}/seasons{all}",
    [ PathParam("ver", Ver("v1")),
      PathParam("all", ParamSpec(map["type" := Str("bool"), "default" := Bool(false),
                                     "true" := Str("/all"), "false" := Str(""), "required" := Bool(false)]))],
    Words(["season", "sportId", "divisionId", "leagueId", "fields"]),
    [["sportId", "divisionId", "leagueId"]])

  const Season := Descriptor(
    BaseUrl + "{ver}/seasons/{season}",
    [ PathParam("ver", Ver("v1")),
      PathParam("season", ParamSpec(map["type" := Str("str"), "default" := Bool(false), "required" := Bool(true)]))],
    Words(["sportId", "fields"]),
    [["sportId"]])

  /** Its `query_params` is an array holding one array of names. */
  const Teams := Descriptor(
    BaseUrl + "{ver}/teams",
    [PathParam("ver", Ver("v1"))],
    Listed([Nested(["season", "activeStatus", "leagueIds", "sportId", "sportIds", "gameType", "hydrate", "fields"])]),
    [])

  /** The transcribed part of `ENDPOINTS`, keyed by endpoint name. */
  function Registry(currentYear: nat): map<string, Descriptor>
  {
    map[
      "attendance" := Attendance,
      "awards" := Awards,
      "draft" := Draft(currentYear),
      "game_diff" := GameDiff,
      "people_free_agents" := PeopleFreeAgents,
      "person" := Person,
      "person_game_stats" := PersonGameStats,
      "seasons" := Seasons,
      "season" := Season,
      "teams" := Teams]
  }
}
