# Backlog CLI request planning, in Dafny

This project models the command-line client of the Backlog API found in
`plugins/backlog-skill/scripts/backlog.ts`. It covers everything the client
decides before and around its single HTTP request:

- the configuration read from `BACKLOG_DOMAIN` and `BACKLOG_API_KEY` (`getConfig`);
- the endpoint of every command, including the issue-search query built with
  `URLSearchParams` (`getIssues`) and the endpoint strings of `getProjects` and
  `getNotifications`;
- the form bodies of `createIssue`, `updateIssue` and `addComment`;
- the authenticated URL: `https://{domain}/api/v2/{endpoint}` with `apiKey`
  set on its search parameters (`callApi` and the three form posts);
- the error messages: the status-hint table of `callApi`, the hint-less
  variant of the form posts, and the network-error message;
- how one reply completes one request (`response.ok`, `response.text()`,
  `response.json()`, a rejected `fetch`);
- `main`: the usage error, `--help`, the configuration check, the `switch` over
  the sixteen commands with their missing-argument errors, the flag loops of
  `get-issues` and `get-notifications`, the `--archived` test of
  `get-projects`, the `Invalid JSON` rewriting around `create-issue` and
  `update-issue`, and the final `Error:` line with its exit code.

Files and modules:

- `wrappers.dfy` (`Wrappers`): `Option` and `Result`.
- `numbers.dfy` (`Numbers`): JavaScript numbers as `NaN` or an integer. It
  gives their decimal text (`toString`), the decimal prefix `parseInt` reads,
  and truthiness.
- `search_params.dfy` (`Form`): the name-value list of `URLSearchParams`.
  This is section 5.2 of the WHATWG URL Standard, application/x-www-form-urlencoded.
  - A class `SearchParams` whose `Append` and `Set` update the list in place.
  - The `set` operation as a function (`SetPair`), and `toString()` (`Serialize`).
  - The percent-encoding of names and values is a function parameter `enc`;
    `FixesUnreserved(enc)` says that it leaves ASCII alphanumerics and `*-._`
    unchanged.
  - The grouped-list lemmas (`Prefix`, `Flatten`, `Only`). They state what a
    list built group by group contains, name by name and in order.
- `api.dfy` (`Api`): the request engine and the per-endpoint operations.
- `cli.dfy` (`Cli`): `main`.

The source fills `URLSearchParams` objects step by step, grows `endpoint`
with `+=`, and updates `options` and `count` inside `for` loops. Each of these
is a method here, proved against a reference function. The reference
functions' properties are then proved as lemmas:

- `IssueSearchParams` builds `IssueParams`.
- `FillCreateIssueForm` builds `CreateIssueForm`, and `FillUpdateIssueForm` builds `UpdateIssueForm`.
- `ParseIssueFlags` computes `IssueOptionsOf`, and `NotificationCount` computes `NotificationCountOf`.

`main` itself is a function from the arguments after `process.argv.slice(2)`,
the two environment values and the JSON parser's outcome to a `Decision`:
`UsageError`, `ShowHelp`, `Rejected(message)`, or one planned `Request`
(verb, host, path, query pairs, form pairs). `Run` then maps the reply to what is
printed and to the exit code.

## Model

| member | source | states |
|---|---|---|
| Numbers.NatText | plugins/backlog-skill/scripts/backlog.ts:175 | the decimal text of a natural number is non-empty, all digits, has no leading zero, and is "0" exactly for zero |
| Numbers.DigitsValueOfNatText | plugins/backlog-skill/scripts/backlog.ts:175 | reading the decimal text back digit by digit gives the number |
| Numbers.NatTextInjective | plugins/backlog-skill/scripts/backlog.ts:175 | distinct numbers have distinct decimal texts |
| Numbers.NumText | plugins/backlog-skill/scripts/backlog.ts:190 | `String(n)`: the digits for a non-negative integer, '-' and the digits for a negative one, "NaN" for NaN |
| Numbers.TruthyNumText | plugins/backlog-skill/scripts/backlog.ts:190-191 | a truthy number is never sent as "0" or "NaN" |
| Numbers.DigitPrefixLength | plugins/backlog-skill/scripts/backlog.ts:415 | the number of leading digits: all of them digits, and the next character is not one |
| Numbers.DigitPrefixOfDigits | plugins/backlog-skill/scripts/backlog.ts:415 | digit text followed by a non-digit has exactly its own length as digit prefix |
| Numbers.ParseInt | plugins/backlog-skill/scripts/backlog.ts:415 | `parseInt` is NaN exactly when no digit follows the optional sign |
| Numbers.ParseSigned | plugins/backlog-skill/scripts/backlog.ts:415 | a leading '+' leaves `parseInt`'s number unchanged, a leading '-' negates it, and NaN stays NaN |
| Numbers.ParsePlusText | plugins/backlog-skill/scripts/backlog.ts:415 | `parseInt` of '+' and a number's decimal text, followed by any non-digit text, is that number |
| Numbers.ParseIntOfText | plugins/backlog-skill/scripts/backlog.ts:425 | round trip: `parseInt` of a number's text, followed by any non-digit text, is that number |
| Numbers.ParseNatText | plugins/backlog-skill/scripts/backlog.ts:425 | the round trip for a non-negative number |
| Numbers.ParseNegativeText | plugins/backlog-skill/scripts/backlog.ts:425 | the round trip for a negative number |
| Numbers.NatTextPrefixUnique | plugins/backlog-skill/scripts/backlog.ts:115 | decimal text followed by a non-digit determines both the number and the text after it |
| Form.Without | plugins/backlog-skill/scripts/backlog.ts:189 | the pairs without a name: none of them carries the name, and the list is no longer |
| Form.CountWithout | plugins/backlog-skill/scripts/backlog.ts:189 | no pair of the name remains after removing it |
| Form.WithoutUnnamed | plugins/backlog-skill/scripts/backlog.ts:189 | removing an absent name changes nothing |
| Form.NamedCount | plugins/backlog-skill/scripts/backlog.ts:189 | a name occurs exactly when its count is positive |
| Form.FirstNamed | plugins/backlog-skill/scripts/backlog.ts:189 | the position of the first pair of the name: it has the name and no pair before it does |
| Form.ReplaceFirst | plugins/backlog-skill/scripts/backlog.ts:189 | the first pair of the name takes the new value and the later ones go: one pair of the name remains, it is the new pair, and the other names are untouched |
| Form.CountConcat | plugins/backlog-skill/scripts/backlog.ts:189 | the pairs of a name in two lists laid end to end are counted separately |
| Form.WithoutConcat | plugins/backlog-skill/scripts/backlog.ts:189 | removing a name from two lists laid end to end removes it from each |
| Form.SetPairSpec | plugins/backlog-skill/scripts/backlog.ts:189 | `set`: a new name is appended at the end; an old one takes the new pair at the position of its first pair, the pairs before it are unchanged and later pairs of the name are dropped; afterwards exactly one pair has the name and it holds the value; pairs with other names keep their order |
| Form.CountAppended | plugins/backlog-skill/scripts/backlog.ts:175 | appending a pair adds one to the count of its name only |
| Form.WithoutAppended | plugins/backlog-skill/scripts/backlog.ts:175 | appending a pair of another name appends it to the rest |
| Form.Only | plugins/backlog-skill/scripts/backlog.ts:174-193 | the pairs of one name, in their order, no more than the list |
| Form.OnlyConcat | plugins/backlog-skill/scripts/backlog.ts:174-193 | selecting by name distributes over concatenation |
| Form.OnlyUniform | plugins/backlog-skill/scripts/backlog.ts:174-193 | a group of one name yields all or nothing |
| Form.OnlyUnnamed | plugins/backlog-skill/scripts/backlog.ts:174-193 | an absent name selects nothing |
| Form.PrefixNames | plugins/backlog-skill/scripts/backlog.ts:174-193 | the first k groups use only the first k names |
| Form.PrefixFresh | plugins/backlog-skill/scripts/backlog.ts:189-193 | before a group is added, its name is new |
| Form.SetFreshStep | plugins/backlog-skill/scripts/backlog.ts:189-193 | `set` of a new name extends the list by exactly that pair |
| Form.PrefixOnly | plugins/backlog-skill/scripts/backlog.ts:174-193 | within the first k groups, the pairs of name j are group j when j < k, otherwise none |
| Form.FlattenOnly | plugins/backlog-skill/scripts/backlog.ts:174-193 | the pairs of each name are exactly its own group, in the group's order |
| Form.FlattenNames | plugins/backlog-skill/scripts/backlog.ts:174-193 | every pair of the whole list carries one of the group names |
| Form.FlattenSeven | plugins/backlog-skill/scripts/backlog.ts:265-272 | seven groups laid end to end are their concatenation |
| Form.FlattenEight | plugins/backlog-skill/scripts/backlog.ts:221-229 | eight groups laid end to end are their concatenation |
| Form.PrefixOrdered | plugins/backlog-skill/scripts/backlog.ts:174-193 | no pair of a later group comes before one of an earlier group, within the first k groups |
| Form.FlattenOrdered | plugins/backlog-skill/scripts/backlog.ts:174-193 | no pair of a later group ever comes before a pair of an earlier group |
| Form.PrefixEmpty | plugins/backlog-skill/scripts/backlog.ts:195-196 | the list is empty exactly when every group is |
| Form.PrefixGrows | plugins/backlog-skill/scripts/backlog.ts:221-225 | the pairs of the first k groups start the pairs of the first m >= k groups |
| Form.PairText | plugins/backlog-skill/scripts/backlog.ts:195 | the text of a pair is never empty |
| Form.Serialize | plugins/backlog-skill/scripts/backlog.ts:195-196 | `toString()` is empty exactly when there is no pair, so `queryString ?` tests for pairs |
| Form.SinglePairText | plugins/backlog-skill/scripts/backlog.ts:141 | one pair of unreserved text serialises to `name=value` |
| Form.SerializeAppended | plugins/backlog-skill/scripts/backlog.ts:81 | one more pair adds `&name=value`, or is the whole text of an empty list |
| Form.SearchParams.constructor | plugins/backlog-skill/scripts/backlog.ts:172 | `new URLSearchParams()` holds no pair |
| Form.SearchParams.Append | plugins/backlog-skill/scripts/backlog.ts:175 | `append` adds the pair at the end and changes nothing else |
| Form.SearchParams.Set | plugins/backlog-skill/scripts/backlog.ts:189 | `set` makes the list what `SetPair` gives (see `SetPairSpec`) |
| Api.GetConfig | plugins/backlog-skill/scripts/backlog.ts:60-72 | success exactly when both values are non-empty, with those values; the domain error comes first, then the key error |
| Api.ProjectsEndpoint | plugins/backlog-skill/scripts/backlog.ts:138-144 | path `projects`; an `archived` pair exactly when a value is given, holding that value |
| Api.GetProjectsEndpoint | plugins/backlog-skill/scripts/backlog.ts:139-141 | the `+=` growth yields `projects`, or `projects?archived=` and the value |
| Api.ProjectsEndpointText | plugins/backlog-skill/scripts/backlog.ts:139-141 | the structured projects endpoint renders to the same strings as the source's `+=` |
| Api.NotificationsEndpoint | plugins/backlog-skill/scripts/backlog.ts:321-323 | path `notifications` with exactly one `count` pair, holding the count's text |
| Api.NumTextUnreserved | plugins/backlog-skill/scripts/backlog.ts:322 | the text of a number needs no percent-encoding |
| Api.RenderSingle | plugins/backlog-skill/scripts/backlog.ts:322 | an endpoint with one unreserved pair renders to `path?name=value` |
| Api.NotificationsEndpointText | plugins/backlog-skill/scripts/backlog.ts:322 | the structured endpoint renders to the source's `notifications?count=${count}` |
| Api.EachSpec | plugins/backlog-skill/scripts/backlog.ts:174-188 | one `name[]` pair per id, pair i holding id i's text, in list order |
| Api.ListedUniform | plugins/backlog-skill/scripts/backlog.ts:174-188 | a list filter contributes pairs of its own name only |
| Api.TextUniform | plugins/backlog-skill/scripts/backlog.ts:189 | a string option contributes pairs of its own name only |
| Api.NumUniform | plugins/backlog-skill/scripts/backlog.ts:190 | a number option contributes pairs of its own name only |
| Api.IssueParamNamesDistinct | plugins/backlog-skill/scripts/backlog.ts:174-193 | the ten parameter names are distinct |
| Api.IssueGroupsGrouped | plugins/backlog-skill/scripts/backlog.ts:174-193 | the search query is ten groups, each of one distinct name |
| Api.ListStep | plugins/backlog-skill/scripts/backlog.ts:174-176 | an `if (ids) forEach(append)` step adds exactly its group |
| Api.TextStep | plugins/backlog-skill/scripts/backlog.ts:189 | an `if (v) set` step on a string adds exactly its group |
| Api.NumStep | plugins/backlog-skill/scripts/backlog.ts:190 | an `if (v) set` step on a number adds exactly its group |
| Api.IssueBuiltGroups | plugins/backlog-skill/scripts/backlog.ts:174-193 | after the first k steps of `getIssues` the list is the first k groups, because each `set` name is new |
| Api.IssueStepGroup | plugins/backlog-skill/scripts/backlog.ts:174-193 | step k of `getIssues` adds exactly group k |
| Api.IssueSearchParams | plugins/backlog-skill/scripts/backlog.ts:171-195 | filling a fresh `URLSearchParams` with the ten steps gives exactly `IssueParams` |
| Api.AppendListed | plugins/backlog-skill/scripts/backlog.ts:174-176 | `if (ids) ids.forEach(append)` appends one pair per id, or nothing for an absent list |
| Api.SetPresentText | plugins/backlog-skill/scripts/backlog.ts:189 | `if (v) params.set(name, v)`: set when non-empty, unchanged otherwise |
| Api.SetPresentNum | plugins/backlog-skill/scripts/backlog.ts:190 | `if (v) params.set(name, v.toString())`: set when truthy, unchanged otherwise |
| Api.AppendEach | plugins/backlog-skill/scripts/backlog.ts:175 | the `forEach` loop appends one pair per id, in order, after what was there |
| Api.IssueParamsByName | plugins/backlog-skill/scripts/backlog.ts:174-193 | each parameter name carries exactly its filter's pairs: one per list element, and one or none per scalar option as it is truthy |
| Api.IssueParamsOrdered | plugins/backlog-skill/scripts/backlog.ts:174-193 | every pair is named by one of the ten options, and the groups appear in the order projectId[], issueTypeId[], statusId[], priorityId[], assigneeId[], keyword, count, offset, sort, order |
| Api.IssueParamsNoFalsyValues | plugins/backlog-skill/scripts/backlog.ts:189-193 | no keyword, sort or order pair is empty, and no count or offset pair is "0" or "NaN" |
| Api.IssuesEndpoint | plugins/backlog-skill/scripts/backlog.ts:195-196 | path `issues` with the search pairs; no pair exactly when no option is set |
| Api.IssueParamsEmpty | plugins/backlog-skill/scripts/backlog.ts:195-196 | the search query is empty exactly when no list has an element and no scalar is truthy |
| Api.IssueParamsNoKey | plugins/backlog-skill/scripts/backlog.ts:171-198 | no search pair is named `apiKey` |
| Api.IssuesEndpointText | plugins/backlog-skill/scripts/backlog.ts:195-196 | the endpoint is `issues` without a `?` when nothing is set, and `issues?` and the serialised pairs otherwise |
| Api.IssuesRequestUrl | plugins/backlog-skill/scripts/backlog.ts:196-198 | the search URL is `/api/v2/issues` with the search pairs followed by the key |
| Api.OnlyContains | plugins/backlog-skill/scripts/backlog.ts:189-193 | a pair of a name is among the pairs selected by that name |
| Api.CreateGroupsGrouped | plugins/backlog-skill/scripts/backlog.ts:222-229 | the create form is eight groups, each of one distinct field name |
| Api.CreateBuiltGroups | plugins/backlog-skill/scripts/backlog.ts:222-229 | after the first k `set` steps of `createIssue` the form is the first k groups |
| Api.CreateStepGroup | plugins/backlog-skill/scripts/backlog.ts:222-229 | step k of `createIssue` adds exactly group k |
| Api.FillCreateIssueForm | plugins/backlog-skill/scripts/backlog.ts:221-229 | filling a fresh `formData` gives exactly `CreateIssueForm` |
| Api.CreateIssueFormPairs | plugins/backlog-skill/scripts/backlog.ts:221-229 | the form is exactly projectId, summary, issueTypeId, priorityId, then each truthy optional among description, assigneeId, dueDate, startDate in that order |
| Api.CreateIssueFormNames | plugins/backlog-skill/scripts/backlog.ts:221-229 | no pair of the form has a name other than the eight fields |
| Api.CreateIssueFormShape | plugins/backlog-skill/scripts/backlog.ts:221-229 | the form starts with projectId, summary, issueTypeId and priorityId in that order; each optional is there exactly when truthy |
| Api.UpdateGroupsGrouped | plugins/backlog-skill/scripts/backlog.ts:266-272 | the update form is seven groups, each of one distinct field name |
| Api.UpdateBuiltGroups | plugins/backlog-skill/scripts/backlog.ts:266-272 | after the first k `set` steps of `updateIssue` the form is the first k groups |
| Api.UpdateStepGroup | plugins/backlog-skill/scripts/backlog.ts:266-272 | step k of `updateIssue` adds exactly group k |
| Api.FillUpdateIssueForm | plugins/backlog-skill/scripts/backlog.ts:265-272 | filling a fresh `formData` gives exactly `UpdateIssueForm` |
| Api.UpdateIssueFormPairs | plugins/backlog-skill/scripts/backlog.ts:265-272 | the form is exactly the truthy fields among summary, description, statusId, priorityId, assigneeId, dueDate, comment, in that order |
| Api.UpdateIssueFormShape | plugins/backlog-skill/scripts/backlog.ts:265-272 | only the seven field names occur; each field is there exactly when truthy, so the form is empty exactly when nothing is truthy |
| Api.FillCommentForm | plugins/backlog-skill/scripts/backlog.ts:298-299 | the comment body is exactly one `content` pair holding the content |
| Api.RequestUrl | plugins/backlog-skill/scripts/backlog.ts:80-81 | host and `/api/v2/` path; exactly one `apiKey` pair, holding the key; the other pairs are kept; a new key goes last |
| Api.AppendedUrlText | plugins/backlog-skill/scripts/backlog.ts:80-81 | the text of a URL whose query ends with one more pair: `https://host/api/v2/path?` and the pairs |
| Api.RequestUrlText | plugins/backlog-skill/scripts/backlog.ts:80-81 | the URL text is the endpoint's, then `?apiKey=…` or `&apiKey=…` after its query |
| Api.ApiGet | plugins/backlog-skill/scripts/backlog.ts:77-96 | a getter is a GET through `callApi`, with no body, to the authenticated URL |
| Api.NotificationsRequestUrl | plugins/backlog-skill/scripts/backlog.ts:321-323 | the notifications URL carries the count pair, then the key |
| Api.CreateIssueRequest | plugins/backlog-skill/scripts/backlog.ts:216-237 | POST as a form post to `/api/v2/issues`, query only the key, body the create form |
| Api.UpdateIssueRequest | plugins/backlog-skill/scripts/backlog.ts:257-280 | PATCH as a form post to `/api/v2/issues/{id}`, query only the key, body the update form (possibly empty) |
| Api.AddCommentRequest | plugins/backlog-skill/scripts/backlog.ts:290-307 | POST as a form post to `/api/v2/issues/{id}/comments`, query only the key, body the one content pair |
| Api.Hint | plugins/backlog-skill/scripts/backlog.ts:106-114 | a hint exists exactly for 400, 401, 403, 404, 429 and 500 |
| Api.ErrorTextEndsWithBody | plugins/backlog-skill/scripts/backlog.ts:115 | the message ends with the body text |
| Api.ApiErrorMessageShape | plugins/backlog-skill/scripts/backlog.ts:104-116 | `API Error S (hint): body` for a status in the table, otherwise `API Error S: body`; the body always last |
| Api.FormErrorMessageAgrees | plugins/backlog-skill/scripts/backlog.ts:239-242 | the form-post message ends with the body, and equals the `callApi` one exactly when the status has no hint |
| Api.ErrorTextDiffers | plugins/backlog-skill/scripts/backlog.ts:115 | a message with a hint differs from the same message without one |
| Api.ErrorTextInjective | plugins/backlog-skill/scripts/backlog.ts:115 | equal messages have equal statuses, and equal bodies when the hints are equal |
| Api.SamePrefixRest | plugins/backlog-skill/scripts/backlog.ts:115 | after a common prefix, equal texts have equal rests |
| Api.ApiErrorMessageInjective | plugins/backlog-skill/scripts/backlog.ts:104-116 | the status and the body can be read back from a `callApi` message |
| Api.NetworkErrorNamesDomain | plugins/backlog-skill/scripts/backlog.ts:98-100 | the network message opens with its fixed text and then names the domain |
| Api.NetworkErrorMessageInjective | plugins/backlog-skill/scripts/backlog.ts:98-100 | different domains give different network messages |
| Api.NetworkErrorNotApiError | plugins/backlog-skill/scripts/backlog.ts:98-116 | a network failure is never reported like an HTTP error status, from `callApi` or from a form post |
| Api.Complete | plugins/backlog-skill/scripts/backlog.ts:94-118 | 2xx: the JSON value, or the `SyntaxError` of `response.json()`; otherwise the status message, with a hint only from `callApi`; a `TypeError` of `fetch` in `callApi` becomes the network error naming the domain; any other rejection is passed on |
| Cli.OnePrefix | plugins/backlog-skill/scripts/backlog.ts:414-431 | an argument starts with at most one `--name=` prefix |
| Cli.Field | plugins/backlog-skill/scripts/backlog.ts:415 | the text up to the first `=`, or all of it |
| Cli.SecondField | plugins/backlog-skill/scripts/backlog.ts:415 | `split("=")[1]` is the text between the first `=` and the next one |
| Cli.FlagValue | plugins/backlog-skill/scripts/backlog.ts:415 | for a flag argument the value is what follows the prefix, up to the next `=` |
| Cli.FieldLength | plugins/backlog-skill/scripts/backlog.ts:415 | the first field ends at the first `=` |
| Cli.LastFlag | plugins/backlog-skill/scripts/backlog.ts:413-433 | the last argument with a prefix: absent exactly when none has it, and no later argument has it |
| Cli.LastFlagStep | plugins/backlog-skill/scripts/backlog.ts:481-484 | one more argument replaces the last flag exactly when it has the prefix |
| Cli.IssueFlagsArePrefixes | plugins/backlog-skill/scripts/backlog.ts:414-431 | each `get-issues` flag ends in its only `=` |
| Cli.IssueFlagsExclusive | plugins/backlog-skill/scripts/backlog.ts:414-431 | no argument matches two branches of the `else if` chain |
| Cli.Branch | plugins/backlog-skill/scripts/backlog.ts:414-432 | the branch an argument takes: one it starts with, or none at all and the argument is ignored |
| Cli.BranchOfFlag | plugins/backlog-skill/scripts/backlog.ts:414-432 | an argument starting with a flag takes that flag's branch, whatever the order of the tests |
| Cli.LastInBranch | plugins/backlog-skill/scripts/backlog.ts:413-433 | the last argument of a branch belongs to it |
| Cli.LastInBranchIsLastFlag | plugins/backlog-skill/scripts/backlog.ts:413-433 | the last argument of a branch is the last argument that starts with its flag |
| Cli.BranchValueStep | plugins/backlog-skill/scripts/backlog.ts:413-433 | one more argument changes only its own branch's value |
| Cli.IssueOptionsOf | plugins/backlog-skill/scripts/backlog.ts:412-433 | there is no issue-type flag, and each filter flag yields a one-element list |
| Cli.ParseIssueFlags | plugins/backlog-skill/scripts/backlog.ts:412-433 | the `for` loop over the arguments computes `IssueOptionsOf` |
| Cli.IssueOptionsLastWins | plugins/backlog-skill/scripts/backlog.ts:413-433 | for a repeated flag the last occurrence wins; its value is the text after the prefix up to the next `=`; an absent flag leaves its option unset |
| Cli.NotificationCountOf | plugins/backlog-skill/scripts/backlog.ts:480-485 | no `--count=` argument exactly when the count is the default 20 and no last flag exists; otherwise `parseInt` of the last one's value (so `--count=20` also gives 20) |
| Cli.NotificationCount | plugins/backlog-skill/scripts/backlog.ts:480-485 | the `for` loop computes `NotificationCountOf` |
| Cli.NotificationCountDefault | plugins/backlog-skill/scripts/backlog.ts:480 | with no `--count=` after the command the count is 20 |
| Cli.DefaultCountText | plugins/backlog-skill/scripts/backlog.ts:480 | the default count is sent as `20` |
| Cli.Lookup | plugins/backlog-skill/scripts/backlog.ts:373-495 | a command word found in the `switch` is that command's name |
| Cli.LookupName | plugins/backlog-skill/scripts/backlog.ts:373-495 | every command is found under its own name |
| Cli.GetterEndpoint | plugins/backlog-skill/scripts/backlog.ts:396-477 | a project getter fails exactly when the id is missing, with `projectIdOrKey required`; an issue getter the same with `issueIdOrKey required`; the other getters always succeed; no endpoint carries `apiKey` |
| Cli.GetterFixedPaths | plugins/backlog-skill/scripts/backlog.ts:122-136 | the paths `space`, `users/myself`, `users`, `priorities`, `notifications/count` |
| Cli.GetterIdPaths | plugins/backlog-skill/scripts/backlog.ts:146-156 | the paths `projects/{id}`, `projects/{id}/issueTypes`, `projects/{id}/categories`, `issues/{id}`, `issues/{id}/comments` |
| Cli.Perform | plugins/backlog-skill/scripts/backlog.ts:396-492 | each missing positional gives its named error and plans nothing; the update and comment ids are checked before the second argument; a planned request goes to the configured host with the key as its last and only `apiKey` pair; only create and update keep a payload |
| Cli.PerformCreate | plugins/backlog-skill/scripts/backlog.ts:443-453 | a missing payload gives `JSON params required`; a planned request keeps the payload |
| Cli.PerformUpdate | plugins/backlog-skill/scripts/backlog.ts:455-466 | the id is checked before the payload |
| Cli.PerformComment | plugins/backlog-skill/scripts/backlog.ts:468-472 | the id is checked before the content |
| Cli.PerformGetter | plugins/backlog-skill/scripts/backlog.ts:396-441 | a getter's missing id gives its named error; otherwise a `callApi` request with the key last |
| Cli.Command | plugins/backlog-skill/scripts/backlog.ts:373-496 | an unknown word gives `Unknown command: …`; the outcome is an error or one request to the configured host, with the key last; exactly create and update keep a payload |
| Cli.Dispatch | plugins/backlog-skill/scripts/backlog.ts:331-373 | usage error exactly when the command is missing or empty; help exactly for `--help`/`-h`, before the configuration; a configuration error beats every command check, unknown commands included |
| Cli.DispatchIssues | plugins/backlog-skill/scripts/backlog.ts:411-436 | `get-issues` searches with the options its flags select |
| Cli.DispatchProjects | plugins/backlog-skill/scripts/backlog.ts:390-394 | `get-projects` asks for `projects?archived=true` exactly when `--archived` is an argument, and for `projects` otherwise |
| Cli.DispatchNotifications | plugins/backlog-skill/scripts/backlog.ts:479-488 | `get-notifications` sends the count its flags select |
| Cli.DispatchGetter | plugins/backlog-skill/scripts/backlog.ts:374-441 | a getter's word plans that getter's `callApi` request, or rejects with its missing-argument error |
| Cli.DispatchCreate | plugins/backlog-skill/scripts/backlog.ts:443-453 | a payload with a `SyntaxError` is rejected as `Invalid JSON` quoting the raw text, with no request; a parsed one plans the create post |
| Cli.DispatchUpdate | plugins/backlog-skill/scripts/backlog.ts:455-466 | the same for `update-issue`, with the id in the path |
| Cli.DispatchComment | plugins/backlog-skill/scripts/backlog.ts:468-472 | `add-comment` posts the content as it is to the issue's comments |
| Cli.ExitCode | plugins/backlog-skill/scripts/backlog.ts:334-502 | exit 0 exactly for help and for a printed result |
| Cli.Stderr | plugins/backlog-skill/scripts/backlog.ts:335-500 | something is written to standard error exactly when the exit code is 1 |
| Cli.Run | plugins/backlog-skill/scripts/backlog.ts:369-502 | the corrected run of `main` (see Findings): usage and help exactly as dispatched; a rejection prints its message; a planned request is reported by its reply alone |
| Cli.RunAsWritten | plugins/backlog-skill/scripts/backlog.ts:443-466 | `main` as written: agrees with `Run` for every run that plans no request, plans one without a payload, or whose reply does not throw a `SyntaxError`; a planned create or update whose reply throws one is reported as `Invalid JSON` quoting the payload |
| Cli.AsWrittenBlamesParsedPayload | plugins/backlog-skill/scripts/backlog.ts:445-452 | for a parsed payload answered 2xx with a non-JSON body, the source reports `Invalid JSON` quoting the payload; the corrected run reports the reply's error |
| Cli.AsWrittenBlamesParsedUpdate | plugins/backlog-skill/scripts/backlog.ts:455-466 | the same for an `update-issue` whose payload parses |
| Cli.AsWrittenBlamesPayload | plugins/backlog-skill/scripts/backlog.ts:445-452 | the same on `create-issue` with the complete payload `{"projectId":1,"summary":"s","issueTypeId":2,"priorityId":3}`, answered 201 with an HTML body |
| Cli.CreateIssueReports | plugins/backlog-skill/scripts/backlog.ts:443-453 | the corrected run reports `Invalid JSON` only when the payload fails to parse; once it parses, the reply alone decides |

## Left out

- `fetch`, `response.text()`, `response.json()`, `async`/`await`: the reply is an input (`Reply`), with its status, text, and the outcome of `response.json()`.
- The request headers are only the function `ContentType`; `callApi`'s JSON body branch (lines 90-92) is not modelled, because no caller passes a body.
- `JSON.parse` of the payload and the conversion of its result to parameters are a parameter function. It returns the parsed record, a `SyntaxError` message, or another error thrown before any request (such as a `TypeError` for `null`).
- `process.env`, `console.log`, `console.error`, `process.exit`: they appear as the `Env` input and the `Report`, `Stderr` and `ExitCode` outputs. The help text and the `JSON.stringify(result, null, 2)` pretty-printing are not modelled; the result is the JSON text the reply gives.
- `process.argv.slice(2)`: the model starts from the arguments after the script.
- `parseInt`: leading whitespace, `0x` prefixes and digits beyond the safe integer range are not modelled; it reads an optional sign and a run of decimal digits. `Number.toString` is modelled for integers and NaN only, since nothing else can come from `parseInt` or from the id lists.
- JSON payload numbers that are not integers (such as `1.5` or `Infinity`) are outside `Num`. So are payload fields of another JSON type: `{"statusId":"0"}` gives a truthy string that the source sends as `statusId=0`, and the model cannot express it.
- The percent-encoding bytes of `URLSearchParams.toString()` are the abstract `enc`.
- `new URL(...)` parsing is modelled as splitting into host, path and query pairs. It does not normalise dot segments in the path, percent-encode ids in the path, or lowercase the host; the host is the domain as given.
- `new URL(...)` throws a `TypeError` for a domain that makes the URL malformed. That happens at line 80, outside the `try` of lines 95-102, so it would escape as a raw error rather than the network message; the model takes every URL as well formed. An id or key containing `?`, `#` or `/`, or a domain containing a path, would be parsed differently and is not modelled. The re-serialisation of an endpoint's query when `apiKey` is set is taken as preserving its pairs.
- `get-projects`: `args.includes("--archived")` is modelled as membership in all the arguments, including the command word itself, as the source does.
- Where the code and its design description differ, the model follows the code:
  - `update-issue` with a payload whose fields are all falsy sends an empty PATCH body; no field is required (`UpdateIssueFormShape`).
  - The transport `TypeError` becomes the network-error message only in `callApi`; the three form posts pass the raw error on (`Complete`).

## Findings

| source | as written | input that shows it | evidently intended | confidence | as-written member | corrected member |
|---|---|---|---|---|---|---|
| plugins/backlog-skill/scripts/backlog.ts:445-452 | the `try` around `createIssue(config, JSON.parse(args[1]))` rewrites every `SyntaxError` as `Invalid JSON: …\nReceived: <payload>`, including the one `response.json()` throws for a 2xx reply whose body is not JSON (lines 458-465 do the same for `update-issue`) | `create-issue '{"projectId":1,"summary":"s","issueTypeId":2,"priorityId":3}'`, answered 201 with body `<html>`: the issue is created, but the output says the payload is invalid JSON | only a failure of `JSON.parse` on the payload is reported as invalid JSON; a reply that cannot be read is reported with its own message | medium, not executed | Cli.AsWrittenBlamesParsedPayload, Cli.AsWrittenBlamesParsedUpdate, Cli.AsWrittenBlamesPayload | Cli.Run, Cli.CreateIssueReports |
