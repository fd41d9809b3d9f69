# baseline_stats request engine, in Dafny

This project models the request-construction engine of the `BaselineRequest`
class of the baseline_stats Ruby gem, a client for the MLB Stats API, and
proves properties of it. A request names an endpoint of the
`BaselineEndpoints::ENDPOINTS` table and carries a hash of options. Building it
has four parts:

- **Path resolution.** `construct_path` resolves each declared path parameter
  and puts its text in place of the `{name}` token of the URL template. A
  parameter is either of the string kind (the option or the default) or of the
  boolean kind (an entry of the spec hash chosen by the option's string form).
  A required parameter whose value is blank is reported, and processing goes on.
- **Query filtering.** `call_api` keeps only the options whose keys the endpoint
  accepts.
- **Required groups.** Each required OR-group with no member among the query
  keys is reported after the path errors. The request is issued only when
  there are no errors at all.
- **Options.** `params` lists the legal keys. `set_option` stores a value,
  overwriting it or keeping a truthy existing one.

Modules, one per file:

- `Wrappers` (`wrappers.dfy`): `Option` and `Result`.
- `Values` (`values.dfy`): the Ruby values an option can hold (`nil`, booleans,
  strings, integers), truthiness and `||`, ActiveSupport's `blank?`/`present?`,
  and `to_s`.
- `Positions` (`positions.dfy`): the positions of a boolean mask that hold, in
  order. Both error lists are "one error per selected position".
- `Substitution` (`substitution.dfy`): `String#sub!` with a literal pattern
  (first occurrence only), and templates as literal pieces around tokens.
- `Endpoints` (`endpoints.dfy`): the shape of a table entry, and ten entries
  transcribed from `lib/baseline_endpoints.rb`.
- `BaselineRequest` (`request.dfy`): `new`, `construct_path`, `call_api` up to
  the HTTP call, `params` and `set_option`.
- `RequestProperties` (`request_properties.dfy`): what the engine guarantees
  for every entry and every option hash.
- `Unfold` (`unfold.dfy`): the engine spelled out for one to four parameters.
  The scenario proofs are built from these steps.
- `Scenarios` (`scenarios.dfy`): the engine on the transcribed entries.

Behaviours of the code that are easy to miss:

- A string parameter falls back to its default only when the option is `nil` or
  `false` (Ruby `||`), not whenever it is blank. A supplied `""` is kept, puts
  nothing in the URL, and is reported when required, even though the default
  is not blank (`EmptyStringKept`, `PersonGameStatsEmptyGame`).
- A resolved value goes into the URL as its `to_s`, not as the empty string when
  blank. So `season`'s default `false` is reported as missing, yet the URL ends
  in `/false` (`SeasonOmitted`).
- A boolean parameter is a lookup of the option's string form among the spec
  hash's own keys, so it is not restricted to its true and false texts. The
  option `"type"` puts in `bool` (`SeasonsAllSwitch`). Whether it can be
  reported depends on its `required` entry, as for strings (`BooleanLookup`).
- For `game_diff`, options holding only `startTimecode` also report the missing
  `gamePk` (whose default is `""`) ahead of the `endTimecode` group
  (`GameDiffMissingGameAndEnd`). The group error stands alone only when a game
  is given (`GameDiffMissingEnd`).
- A declared parameter whose token is missing from the template is not an error
  of the table. It is resolved and reported as usual but changes no URL
  (`PeopleFreeAgentsPath`).
- The text of `draft` says `prospects` and `latest` cannot be combined. Nothing
  enforces that, and both suffixes are put in (`DraftProspectsAndLatest`).
- An unknown endpoint raises in `initialize`; it is modelled as a `Failure`
  value.

The anomalies of the table are modelled as written:

- `people_free_agents` declares `leagueId` with no `{leagueId}` token.
- `teams` has a nested array as its `query_params`, so no option ever reaches its
  query.
- `person_game_stats` has the string `"fields"` as its `query_params`. The query
  filter still works, since a splatted string is one key. `params` raises on
  `String + Array`, so `set_option` always fails on that entry.

## Model

| member | source | states |
|---|---|---|
| Values.NatToSRoundTrip | lib/baseline_request.rb:39 | `Integer#to_s` on a non-negative number is its decimal text: reading the digits back gives the number |
| Values.IntToSPresent | lib/baseline_request.rb:39-40 | an integer's string form is never empty or blank, so with `leading_slash` a slash always goes before it |
| Values.BlankStringForm | lib/baseline_request.rb:38-40 | a value's `to_s` is blank exactly when the value is nil or a blank string; `false` stringifies to the non-blank "false" |
| Substitution.FirstIndex | lib/baseline_request.rb:41 | finds the first position at which the literal pattern occurs, or reports that it occurs nowhere |
| Substitution.Sub | lib/baseline_request.rb:41 | `sub!` with a literal pattern replaces its first occurrence and nothing else, and leaves a text without it unchanged |
| Substitution.SubFirstToken | lib/baseline_request.rb:41 | a token preceded by text without its first character is the occurrence replaced, in place |
| Substitution.SubAbsent | lib/baseline_request.rb:41 | a text that does not hold the token's first character is left unchanged |
| Substitution.FillStep | lib/baseline_request.rb:41 | in a template whose earlier pieces and texts hold no `{`, replacing a token fills exactly that token's gap |
| BaselineRequest.New | lib/baseline_request.rb:5-10 | construction fails, naming the endpoint, exactly when the table has no such entry; otherwise it keeps the name, the entry and the options |
| BaselineRequest.CallApi | lib/baseline_request.rb:17-26 | `call_api` up to the HTTP call; `RequestProperties.RequestGate` states when it issues the request and with what, `RequestProperties.ErrorsPathThenGroups` what a refusal lists |
| BaselineRequest.ConstructPath | lib/baseline_request.rb:28-45 | `construct_path`; `RequestProperties.PathErrorsInOrder` states its error array and `RequestProperties.TemplateFilledInOrder` its URL |
| BaselineRequest.PathValue | lib/baseline_request.rb:32-37 | the resolved value of a path parameter; `RequestProperties.StringFallback`, `RequestProperties.BooleanLookup` and `RequestProperties.BooleanSwitch` state it for both kinds |
| BaselineRequest.PathText | lib/baseline_request.rb:39-40 | the text put in place of a token; `RequestProperties.LeadingSlashRule` states when the slash goes in |
| BaselineRequest.GroupErrors | lib/baseline_request.rb:20-22 | the required-group errors; `RequestProperties.GroupErrorsInOrder` and `RequestProperties.GroupErrorsEmpty` state which groups are reported, in order |
| BaselineRequest.Query | lib/baseline_request.rb:19 | the query holds exactly the options whose keys the entry's `query_params` accepts, with their values unchanged |
| BaselineRequest.Params | lib/baseline_request.rb:47-49 | `params` raises when `query_params` is a string; otherwise it holds exactly the query names and the path parameter names |
| BaselineRequest.SetOption | lib/baseline_request.rb:51-55 | succeeds exactly for legal keys (raising otherwise); with overwrite stores the value, without it keeps a truthy existing value; no other key changes |
| RequestProperties.StringFallback | lib/baseline_request.rb:36 | a string parameter takes the option unless it is absent, nil or false, and the default otherwise |
| RequestProperties.EmptyStringKept | lib/baseline_request.rb:36-40 | a supplied `""` is used, not the default; it puts nothing in the URL and is reported exactly when the parameter is required |
| RequestProperties.BooleanLookup | lib/baseline_request.rb:34 | a boolean parameter takes the spec entry named by the option's string form when it is truthy, else the entry named by the default's string form; without `required` it is never reported |
| RequestProperties.BooleanSwitch | lib/baseline_request.rb:34 | for the table's true/false switches: the option true or "true" gives the true text, false or "false" the false text, "type" gives "bool", anything else the default's text; never reported |
| RequestProperties.LeadingSlashRule | lib/baseline_request.rb:39-40 | a slash goes before the string form exactly when `leading_slash` is set and the form is not blank; nil puts in nothing |
| RequestProperties.PathErrorsInOrder | lib/baseline_request.rb:28-45 | the path errors are one per missing parameter, in declaration order, with none skipped after the first |
| RequestProperties.PathErrorsEmpty | lib/baseline_request.rb:38 | there are no path errors exactly when no parameter is required with a blank value |
| RequestProperties.NotMissingNotReported | lib/baseline_request.rb:38 | a name none of whose parameters is missing never appears among the path errors |
| RequestProperties.FirstMissingReportedFirst | lib/baseline_request.rb:31-38 | a missing first parameter is the first error, since processing is in declaration order |
| RequestProperties.RequiredWithoutValueFails | lib/baseline_request.rb:36-38 | a required string parameter with a blank default that the caller leaves out is reported exactly once, and the request is refused |
| RequestProperties.FilledPrefix | lib/baseline_request.rb:31-42 | after the first j parameters, the first j tokens of a brace-free template hold their texts and the later tokens are untouched |
| RequestProperties.TemplateFilledInOrder | lib/baseline_request.rb:28-45 | on a brace-free template with brace-free texts, the URL is the template with every token replaced by its parameter's text |
| RequestProperties.AbsentTokenKeepsUrl | lib/baseline_request.rb:38-41 | a parameter whose token is not in the URL leaves the URL as it is, though it may still be reported |
| RequestProperties.QueryIdempotent | lib/baseline_request.rb:19 | filtering an already filtered query changes nothing |
| RequestProperties.WalkIgnores | lib/baseline_request.rb:31-42 | an option named after no path parameter does not change the path walk |
| RequestProperties.ExtraneousOptionIgnored | lib/baseline_request.rb:17-26 | an option that is neither an accepted query key nor a path parameter changes neither the query, nor the URL, nor the errors |
| RequestProperties.GroupErrorsInOrder | lib/baseline_request.rb:20-22 | the group errors are one per group with no member among the query keys, in declaration order |
| RequestProperties.GroupErrorsEmpty | lib/baseline_request.rb:20-22 | there are no group errors exactly when every group has a member among the query keys |
| RequestProperties.GroupMetByPresence | lib/baseline_request.rb:21 | any accepted member present as an option key meets its group, whatever its value, nil included |
| RequestProperties.RequestGate | lib/baseline_request.rb:17-26 | the request is issued exactly when no path parameter is missing and every group is met, with the filled URL and the filtered query |
| RequestProperties.ErrorsPathThenGroups | lib/baseline_request.rb:18-24 | a refused request lists the path errors in order, then the group errors in order, and nothing else |
| RequestProperties.EmptyOptionsSucceed | lib/baseline_request.rb:17-26 | an entry without groups whose required parameters all have non-blank string defaults accepts empty options |
| RequestProperties.SetOptionKeepsExisting | lib/baseline_request.rb:53 | without overwrite, a key already holding a truthy value leaves the request unchanged |
| RequestProperties.SetOptionKeepIdempotent | lib/baseline_request.rb:53 | setting a key without overwrite twice is the same as setting it once |
| RequestProperties.SetOptionLastWins | lib/baseline_request.rb:53 | of two overwriting calls on one key, the later one wins |
| RequestProperties.SetOptionReachesQuery | lib/baseline_request.rb:51-55 | a value set on an accepted query key reaches the query unchanged |
| Scenarios.AwardsEmpty | lib/baseline_endpoints.rb:25-49 | with no options `awards` is issued at `v1/awards` with an empty query: no award id, no slash, and the empty false text |
| Scenarios.AwardsRecipients | lib/baseline_endpoints.rb:25-49 | an award id gets its slash and `recipients: true` adds `/recipients`; neither option reaches the query |
| Scenarios.AttendanceNeedsOneOfGroup | lib/baseline_endpoints.rb:11-24 | with `ver` left out, `attendance` is issued exactly when one of teamId, leagueId, leagueListId is given, and is otherwise refused with that group alone |
| Scenarios.GameDiffPath | lib/baseline_endpoints.rb:127-140 | with `ver` left out and a game given, `game_diff` builds the v1.1 diffPatch URL with no path error, whatever the time codes |
| Scenarios.GameDiffGroups | lib/baseline_endpoints.rb:141-142 | the two single-key groups are checked independently, one error for each missing time code |
| Scenarios.GameDiffIssued | lib/baseline_endpoints.rb:127-145 | with a game and both time codes the request is issued with exactly the two time codes as its query |
| Scenarios.GameDiffMissingEnd | lib/baseline_endpoints.rb:141-142 | a game and only startTimecode is refused with the single endTimecode group error |
| Scenarios.GameDiffMissingGameAndEnd | lib/baseline_endpoints.rb:135-142 | only startTimecode is refused with the missing gamePk first, then the endTimecode group |
| Scenarios.PersonById | lib/baseline_endpoints.rb:375-392 | a person id string is put after `people/` and the request is issued with an empty query |
| Scenarios.PersonByNumber | lib/baseline_endpoints.rb:375-392 | a numeric person id is put in as its decimal text |
| Scenarios.PersonWithoutId | lib/baseline_endpoints.rb:383-387 | with `ver` left out and no person id, the URL ends in `people/` and the request is refused with the missing personId alone |
| Scenarios.PersonGameStatsQuery | lib/baseline_endpoints.rb:431 | the string `query_params` keeps exactly the `fields` option |
| Scenarios.PersonGameStatsCurrent | lib/baseline_endpoints.rb:412-435 | a left-out gamePk takes its default `current`, without a path error |
| Scenarios.PersonGameStatsEmptyGame | lib/baseline_endpoints.rb:425-429 | a supplied empty gamePk is kept over the default and reported |
| Scenarios.PersonGameStatsSetOptionFails | lib/baseline_endpoints.rb:431 | `set_option` fails on every key of this entry, since `params` raises |
| Scenarios.SeasonsAllSwitch | lib/baseline_endpoints.rb:554-569 | with `ver` left out, `all` is never reported: its option's string form "true" adds `/all`, "type" adds `bool`, anything else nothing |
| Scenarios.SeasonsNeedsOneOfGroup | lib/baseline_endpoints.rb:570-571 | with `ver` left out, `seasons` is issued exactly when one of sportId, divisionId, leagueId is given, with or without `all` |
| Scenarios.SeasonOmitted | lib/baseline_endpoints.rb:575-592 | with `ver` left out and no season, the default `false` is reported, the URL ends in `/false`, and a missing sportId adds its group error |
| Scenarios.TeamsIgnoresQuery | lib/baseline_endpoints.rb:665-677 | the nested `query_params` lets no option through; with `ver` left out, `teams` is always issued at `v1/teams` |
| Scenarios.TeamsSetOption | lib/baseline_endpoints.rb:665-677 | only `ver` can be set on `teams` |
| Scenarios.PeopleFreeAgentsPath | lib/baseline_endpoints.rb:357-370 | with `ver` left out, `leagueId` never reaches the URL, which has no token for it, but is still reported when blank |
| Scenarios.PeopleFreeAgentsGate | lib/baseline_endpoints.rb:357-374 | with `ver` left out, the request is issued exactly when leagueId is present and season is given; leagueId never reaches the query |
| Scenarios.DraftDefault | lib/baseline_endpoints.rb:77-108 | with no options `draft` is issued for the current year, after a slash |
| Scenarios.DraftProspectsAndLatest | lib/baseline_endpoints.rb:85-106 | prospects and latest together are not rejected; both suffixes go around the year |
| Scenarios.RegistryVerLed | lib/baseline_endpoints.rb:10-24 | every transcribed entry declares `ver` first, as a required string defaulting to v1 or v1.1, and nowhere else |
| Scenarios.VerNeverMissing | lib/baseline_endpoints.rb:12-18 | on every transcribed entry a left-out `ver` resolves to v1 or v1.1 and is never reported |
| Scenarios.VerBlankReportedFirst | lib/baseline_request.rb:36-38 | on every transcribed entry an explicitly empty `ver` is kept and is the first error reported |

## Left out

- The HTTP call `HTTParty.get` and the response (lib/baseline_request.rb:25): network I/O. A request that passes is returned as the URL and query it would be sent with.
- The `test` method and the `test_params` and `note` fields (lib/baseline_request.rb:12-15): they only swap in canned options before the HTTP call.
- lib/baseline_stats.rb is not part of this model. It holds an older, non-validating copy of the substitution and wrappers that parse remote JSON.
- `with_indifferent_access` and `deep_freeze` (lib/baseline_request.rb:9, lib/baseline_endpoints.rb:1-3 and the last lines): option keys are plain strings, so a Symbol key and its String form are one key, and the entries are immutable values.
- The kind of key given to `set_option` (lib/baseline_request.rb:52): its legality check is not indifferent. `params` holds only strings, so a Symbol key such as `:season` raises in the source even where the String `"season"` is accepted. Keys here are strings only, so that refusal is not modelled.
- `Time.now.year` as the `draft` year default (lib/baseline_endpoints.rb:93): it is the parameter `currentYear`. `DateTime` option values are not modelled.
- Option values other than nil, booleans, strings and integers (arrays such as `leagueIds: [103, 104]`, floats, symbols).
- `sub!`'s backslash sequences in the replacement text: the text is put in literally.
- The wording of the error strings and exception messages: errors are datatype values carrying the parameter name or the group.
- The other endpoints of the table: the engine lemmas hold for every entry, and ten entries are transcribed for the scenarios.
- RequestProperties.FilledPrefix and RequestProperties.TemplateFilledInOrder: they describe the URL only for templates and texts without `{`. A text holding `{name}` of a later parameter would be substituted again, and that is not characterised.
- Scenarios.PersonById, Scenarios.GameDiffPath and the other scenarios taking an id: they ask for an id that does not start with a space and holds no `{`.
- Scenarios.AttendanceNeedsOneOfGroup, Scenarios.GameDiffPath, Scenarios.PersonWithoutId, Scenarios.SeasonsAllSwitch, Scenarios.SeasonsNeedsOneOfGroup, Scenarios.SeasonOmitted, Scenarios.TeamsIgnoresQuery, Scenarios.PeopleFreeAgentsPath and Scenarios.PeopleFreeAgentsGate: they hold for option hashes without a `ver` key. `ver` is an ordinary required string parameter, so a given `ver` changes the URL (`"v2"` gives `v2/...`) or, when blank, adds a path error and refuses the request; that case is covered by Scenarios.VerNeverMissing, Scenarios.VerBlankReportedFirst and RequestProperties.StringFallback instead.
