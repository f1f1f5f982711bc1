# Routing decision of a minimal users HTTP server

This project models the pure core of a small Node.js HTTP server for a
collection of users. It covers two things:

- the routing decision of the request handler. A chain of tests on the raw
  request method and url, each of which except POST `/users` returns early
  (see "## Left out"), sends every request to exactly
  one outcome: a fixed 404 or 405, the greeting, list users, create user,
  look up one user by id, or the final 404.
- `env(param)`: read a required variable from the process environment, and
  fail when it is unset or empty.

Modules:

- `Wrappers` (`wrappers.dfy`): `Option` and `Result`.
- `JsString` (`js_string.dfy`): the JavaScript string operations the router
  needs. `Truthy` is `!!value` for a `string | undefined`, so `undefined` and
  `""` are both falsy. `StartsWith` is `startsWith`. `Split` is `split` with a
  one-character separator and keeps empty fields, as JavaScript does:
  `"/users/"` splits into `["", "users", ""]`. `Join` is `parts.join(sep)`,
  the inverse of `Split`; `SplitJoin` and `JoinSplit` prove the two undo each other.
- `Environment` (`environment.dfy`): `Env(envMap, param)`. The process
  environment is passed in as a `map<string, string>`.
- `Router` (`router.dfy`): the `Outcome` datatype, `Classify(verb, url)`,
  and lemmas that characterise each outcome by its inputs. `Outcome.Immediate`
  gives the status and message the router writes straight away. For
  `ListUsers`, `CreateUser` and `LookupUser` it gives `None`, because those
  handlers go on to the database or the request body.

Behaviour of the code worth noting:

- `/` is answered with the greeting for every method; the method is not
  tested there.
- The server has no todo, OPTIONS or DELETE routes. Such a request gets the
  greeting when its url is exactly `/`, and the final 404 otherwise.
- An empty url counts as missing and gives 404. An empty method counts as
  missing and gives 405. This is the falsy test `!url` / `!method`.
- The 404 for an extra path segment says `"Not found"`, lower-case f. The
  final 404 says `"Not Found"`.

`Classify` is a total function without preconditions, so every request has
exactly one outcome and the same request always gets the same one.

## Model

`Truthy` (the JavaScript tests `!url`, `!method`, `!id` and `!value`, at
src/index.ts:16, 20 and 100 and src/common/env.ts:9) and `StartsWith`
(`startsWith`, src/index.ts:90) are definitions without contracts that
the rows below build on.

| member | source | states |
|---|---|---|
| `JsString.StartsWithIff` | src/index.ts:90 | `url.startsWith(p)` holds exactly when the url is `p` followed by the rest |
| `JsString.Split` | src/index.ts:93 | `split("/")` always yields at least one field, and no field contains the separator |
| `JsString.SplitJoin` | src/index.ts:93 | splitting loses nothing: joining the fields with the separator gives back the url |
| `JsString.JoinSplit` | src/index.ts:93 | splitting undoes a join of separator-free fields, so the fields are determined by the string |
| `JsString.SplitNoSep` | src/index.ts:93 | a string without the separator splits into itself alone |
| `JsString.SplitSingleIff` | src/index.ts:93-94 | one field exactly when the separator does not occur |
| `JsString.SplitAppendSep` | src/index.ts:93 | a separator ends one field and starts the next; empty fields are kept |
| `Environment.Env` | src/common/env.ts:7-13 | succeeds exactly when the variable is set to a non-empty string, returning that string; otherwise fails with `"Missing environment variable: " + param` |
| `Environment.EnvDependsOnlyOnEntry` | src/common/env.ts:8 | the result depends only on the environment's entry for `param` |
| `Environment.EnvErrorNamesParam` | src/common/env.ts:10 | two failures with the same message are for the same variable |
| `Router.Outcome.Immediate` | src/index.ts:16-128 | the reply is written straight away for every outcome except list, create and look up; status 200 only for the greeting, 405 only for a missing method, 404 otherwise |
| `Router.Classify` | src/index.ts:12-128 | every request gets exactly one outcome; a 404 from the first or last test says `"Not Found"`; a looked-up id is non-empty and holds no `/` |
| `Router.UsersPathSplit` | src/index.ts:90-93 | a url `"/users/" + rest` splits into `""`, `"users"`, then the fields of `rest` |
| `Router.SplitUsersSlashExample` | src/index.ts:93 | `"/users/".split("/")` is `["", "users", ""]`, empty fields kept |
| `Router.UsersPathFields` | src/index.ts:93-99 | a url under `/users/` has at least three fields, so `urlSplit[2]` is never `undefined`; more than three exactly when the rest holds a `/` |
| `Router.MissingUrlIsNotFound` | src/index.ts:16-19 | a missing or empty url gives 404 `"Not Found"` whatever the method, the url being tested before the method |
| `Router.MethodNotAllowedIff` | src/index.ts:20-23 | 405 exactly when the url is present and the method is missing or empty |
| `Router.HelloIff` | src/index.ts:25-28 | the greeting exactly for url `/` with any present method |
| `Router.ListUsersIff` | src/index.ts:30 | list users exactly for GET `/users` |
| `Router.CreateUserIff` | src/index.ts:50 | create user exactly for POST `/users` |
| `Router.OtherMethodOnUsersIsNotFound` | src/index.ts:127-128 | any other method on `/users` falls through to 404 `"Not Found"` |
| `Router.LookupUserIff` | src/index.ts:90-106 | look up `id` exactly for GET `"/users/" + id` with `id` non-empty and free of `/`; the id is forwarded verbatim |
| `Router.BadIdNotFoundIff` | src/index.ts:90-97 | 404 `"Not found"` exactly for GET on a url under `/users/` whose rest holds a `/` |
| `Router.UserIdRequiredIff` | src/index.ts:99-103 | 404 `"User ID is required"` exactly for GET `/users/` |
| `Router.NonGetUnderUsersIsNotFound` | src/index.ts:90 | a method other than GET on a url under `/users/` is not routed and gets 404 `"Not Found"` |
| `Router.QueryStringDefeatsExactMatch` | src/index.ts:25-30 | matching is exact: `/?q` and `/users?q` get 404 `"Not Found"` for every present method |
| `Router.OrderExamples` | src/index.ts:16-28 | no method and no url gives 404; an empty url gives 404; an empty method gives 405; DELETE `/` and OPTIONS `/` get the greeting |
| `Router.ExtraSegmentExample` | src/index.ts:93-97 | GET `/users/1/2` gets 404 `"Not found"` |
| `Router.TrailingSlashExample` | src/index.ts:93-97 | GET `/users/1/` gets 404 `"Not found"` as well |
| `Router.QueryStringKeptInId` | src/index.ts:93-106 | GET `"/users/" + id + "?" + q` looks up the id `id + "?" + q`: the query string is not stripped |
| `Router.NotFoundIff` | src/index.ts:16-128 | 404 `"Not Found"` exactly when the url is missing or empty, or when the method is present and no route test matches: the url is not `/`, not `/users` with GET or POST, and not under `/users/` with GET |
| `Router.FallThroughExamples` | src/index.ts:127-128 | GET `/users?x=1`, POST `/users/x` and DELETE `/anything` get 404 `"Not Found"` |

## Left out

- Database work: the connection at startup and `User.find`, `findById` and `save`. The database is external, and the user model and schema files are not part of this model. `ListUsers`, `CreateUser` and `LookupUser` stop where this work begins. The replies that depend on it (200 with data, 201, 404 "User not found", 500) are not modelled.
- Reading the request body through `data`/`end` callbacks and `JSON.parse`: callback-driven I/O and a foreign parser.
- `ApiError`: its only behaviour is writing an error body to the response when it is constructed. Its `details` field is a runtime stack trace.
- `Logger`: console output only.
- The response-writing defects are not reproduced. One is the second `res.end` after the 201 reply. Another is that POST `/users` falls through to the final 404 write after its promise settles. A third is `writeHead(500)` after an `ApiError` has already ended the response. The model stops at the routing decision, before any of them.
- The response headers (`Content-Type`) written with each reply: they are the same constant on every path.
- `server.listen` and process startup: these are bootstrapping, not routing.
- Mutation of the process environment: `Env` only reads it, so the model passes it as an immutable map.
