# webhook-handler, modelled in Dafny

webhook-handler is a Twisted web resource that receives JSON webhook calls and
hands each one to a configurable list of handlers: `print` (log a formatted line),
`dump` (write the body to a file whose name is formatted from the request), `run`
(run a command with formatted arguments, optionally with the body on stdin) and
`null` (do nothing). The whole program is `webhook_handler.py`. This project
models its sequential logic and proves what it promises:

- `Config`: the configuration table, an insertion-ordered dict from handler names
  to lists of option records (class `ConfigTable`), and `load_config_file`, which
  merges a decoded JSON configuration file into a table in place. It keeps only keys
  that name a handler, stores a list as it is and wraps any other value in a
  one-element list. `Merge` is the function that specifies it.
- `RequestHandler`: `handle_request`. It checks that the Content-Type is
  `application/json` (ignoring case) and builds the request data. Then a nested
  loop invokes the handler of every key, once per option record, in table order.
  An unknown key goes to `do_nothing`. The first invocation that raises stops the
  loop, and the response is `OK\n` whatever happens. The behaviour is stated as
  the trace of invocations performed (`Dispatch`, `RunCalls`, `Schedule`). The two
  loops are the methods `InvokeSchedule` and `InvokeOptions`, proved against that trace.
- `Handlers`: how `printer`, `dumper` and `runner` resolve their options from the
  record, falling back to `default_cfg`, into a description of their side effect:
  the line logged, the file path and open mode, the command with its arguments
  and stdin.
- `Resource`: `WHHResource`. Construction picks the table (`cfg or {}`), loads
  the configuration file into it, or installs the default `print` option when
  debugging without configuration. The `render_*` methods gate on `post_only`.
- `Cli`: `main`'s rewriting of the command line handed to `twistd`.
- `JsonValues`, `Wrappers`: decoded JSON values with the Python operations the
  handler applies to them (truthiness, `dict.get`, iteration), and Option/Result.

The outside world is a parameter of type `Handlers.World`. It holds `str.format`
templating (a function that may fail), `os.path.expanduser`, and whether carrying
out a side effect succeeds. Writing the file, running the command and calling a
user-supplied handler all raise or not according to `World.perform(n, e)`, where
`n` is the position of the invocation within the request. Within one request the
state left by earlier invocations is fixed by their positions, so this lets the
answer depend on what was done before: two identical `mkdir` records can succeed
and then fail (`RepeatedRecordCanFail`). The environment snapshot `os.environ` is
a parameter. The request is reduced to its Content-Type header, its decoded body
(`None` when it is not valid JSON), its path segments and its headers.

Behaviour kept from the code as written:

- The `render_*` methods call `handle_request(self.cfg, method, request)`. So they
  dispatch through `default_handlers` with `debug` off, whatever handler table and
  debug flag the resource was built with. The resource's own handler table only
  decides which file keys `load_config_file` keeps. The `Render*` methods state
  this: they dispatch with `DefaultHandlers()` and never log. The error is logged
  (webhook_handler.py:138-139) only when `handle_request` is called directly with
  `debug` set, so a request that reaches the resource never logs its error, even
  with `WEBHOOK_DEBUG` set.
- `cfg or {}`: an empty table passed to the constructor is not used. A fresh one
  is used instead, and the caller's table stays unchanged.
- The default print option is installed only when no configuration file was
  found. A file that exists but names no handler leaves the table empty.
- The Content-Type must be exactly `application/json` apart from case. A value
  with parameters, such as `application/json; charset=utf-8`, fails the guard.
  A missing header fails it too (`JsonContentTypeRejected`).
- When a JSON object repeats a key, the dict `json.load` builds holds it once, at
  its first place, with its last value (`DictKeys`, `Lookup`). The model's loop
  runs over the raw members in document order; `MergeAsDict` proves this builds
  the same table as iterating `cfg.items()` of that dict.
- `args` is iterated as Python iterates it: a list gives its items, a string
  gives its characters, an object gives its keys. Null, a boolean or a number
  raises.

## Model

| member | source | states |
|---|---|---|
| `JsonValues.Lookup` | webhook_handler.py:96-107 | `cfg[key]` on a decoded object is absent exactly when no member has that name, and is otherwise the value of the last member with that name |
| `JsonValues.GetOr` | webhook_handler.py:96-107 | `cfg.get(key, default)` is the default when the key is absent, else the stored value |
| `JsonValues.DictKeys` | webhook_handler.py:147 | the keys of the dict built from an object: each member name exactly once, and every name present |
| `JsonValues.DictKeysOrder` | webhook_handler.py:147 | the dict lists its keys in the order of their first occurrence in the object |
| `JsonValues.DictItemsAgree` | webhook_handler.py:147 | `obj.items()` yields the keys in dict order with the value `obj[key]` under each, and has the same keys and lookups as the object |
| `JsonValues.Iterate` | webhook_handler.py:106 | `for a in value` fails exactly on null, booleans and numbers; a list yields its items, a string its one-character strings, an object its keys in dict order |
| `Handlers.DefaultHandlers` | webhook_handler.py:112-117 | the default table binds exactly `dump`, `null`, `print`, `run` to `dumper`, `do_nothing`, `printer`, `runner` |
| `Handlers.TemplateOption` | webhook_handler.py:96-105 | a template option falls back to the default when absent, and is usable exactly when the stored value is a string |
| `Handlers.FormatAll` | webhook_handler.py:106 | the argument list is produced exactly when every template is a string that formats, and then holds each template formatted, in order |
| `Handlers.ResolvePrint` | webhook_handler.py:95-96 | `printer` raises on a non-dict option record; it logs exactly when its `fmt` (or the default) is a string that formats, and logs that text |
| `Handlers.ResolveDump` | webhook_handler.py:98-102 | `dumper` raises on a non-dict record; it writes the request body to the expanded, formatted `fnfmt`, in append mode exactly when `append` is absent or truthy |
| `Handlers.ResolveRun` | webhook_handler.py:104-110 | `runner` runs the formatted `command` with every `args` template formatted in order; the body goes to stdin exactly when `json_in` is present and truthy |
| `Handlers.Resolve` | webhook_handler.py:92-117 | `do_nothing` and only it has no effect; built-in handlers raise on a non-dict record; a user handler is called with the record and data |
| `Handlers.PrintDefaultsToTemplate` | webhook_handler.py:79-96 | an empty option record makes `printer` log the default template |
| `Handlers.DumpDefaultsToAppend` | webhook_handler.py:79-100 | an empty option record makes `dumper` append to the default file name |
| `Handlers.RunDefaultsToEcho` | webhook_handler.py:85-110 | an empty option record makes `runner` run `echo` with the repository name and no stdin |
| `Config.Put` | webhook_handler.py:150-152 | storing under a key keeps the dict well formed: an existing key keeps its place, a new key goes last |
| `Config.Accept` | webhook_handler.py:148-152 | one loop iteration keeps the table well formed |
| `Config.Merge` | webhook_handler.py:147-152 | the merged table is well formed: each key listed once, exactly the stored keys listed; its order is given by `MergeOrder` and its values by `MergeValue` |
| `Config.MergeValue` | webhook_handler.py:147-152 | after the merge, a key that names a handler and occurs in the file holds its last value (a list as is, anything else wrapped in a one-element list); every other key holds exactly what it held before, or stays absent |
| `Config.MergeOrder` | webhook_handler.py:147-152 | the keys after the merge are the old keys, in their old order, followed by the file's keys that name a handler and were not stored, once each, in order of first occurrence in the file |
| `Config.MergeAsDict` | webhook_handler.py:146-152 | merging the file's members one by one gives the same table as iterating `cfg.items()` of the dict `json.load` returns |
| `Config.ConfigTable.constructor` | webhook_handler.py:144 | a new table is empty |
| `Config.ConfigTable.Set` | webhook_handler.py:150-152 | `config[k] = v` updates the table in place as `Put` says |
| `Config.ConfigTable.IsEmpty` | webhook_handler.py:167-177 | a table is false exactly when it holds nothing |
| `Config.LoadConfigFile` | webhook_handler.py:142-153 | raises exactly when the file is unreadable or not a JSON object, leaving the table unchanged; otherwise returns the same table object (a fresh one when none was given), updated to `Merge` of its old contents and the file |
| `RequestHandler.IsJsonContentType` | webhook_handler.py:124 | the guard passes exactly when the header is present, has the length of `application/json`, and each character is that of `application/json` or, for a letter, its upper-case form |
| `RequestHandler.JsonContentTypeAccepted` | webhook_handler.py:124 | `application/json`, `APPLICATION/JSON` and `Application/Json` pass the guard |
| `RequestHandler.JsonContentTypeRejected` | webhook_handler.py:124 | `application/json; charset=utf-8`, `text/plain` and a missing header fail the guard |
| `RequestHandler.JoinSplit` | webhook_handler.py:130 | joining path segments that hold no `/` with `/` and splitting the result on `/` gives the segments back |
| `RequestHandler.MakeContext` | webhook_handler.py:125-132 | when the request has at least one path segment and none holds `/`, the `path` of the request data splits on `/` back into those segments |
| `RequestHandler.TotalOptionsZero` | webhook_handler.py:133-136 | the table holds no option record exactly when every key holds an empty list |
| `RequestHandler.Schedule` | webhook_handler.py:133-136 | the loop schedules exactly one invocation per option record in the table |
| `RequestHandler.ScheduleAt` | webhook_handler.py:133-136 | option record `j` of key number `i` is invocation `TotalOptions(keys[..i]) + j`, bound to that key's handler, which is `do_nothing` for an unknown key |
| `RequestHandler.RunCalls` | webhook_handler.py:133-139 | a run makes at most one step per call, and at least one as soon as there is a call |
| `RequestHandler.RunCallsStops` | webhook_handler.py:133-139 | every step but the last returned, and a run that stops short of the calls ended with a step that raised |
| `RequestHandler.RunCallsAt` | webhook_handler.py:133-136 | performed invocation `i` is the attempt of scheduled call `i`, as invocation number `i` of the request |
| `RequestHandler.RunCallsFirstFailure` | webhook_handler.py:133-139 | invocation `i` is performed exactly when none before it raised |
| `RequestHandler.Dispatch` | webhook_handler.py:121-140 | no handler runs exactly when the guard fails, the body does not decode or the table holds no option record; at most one invocation per record; the `except` branch is taken exactly when the request was turned away or the last invocation raised |
| `RequestHandler.DispatchGuard` | webhook_handler.py:124-127 | a request failing the Content-Type guard, or with an undecodable body, reaches no handler and ends in the `except` branch |
| `RequestHandler.DispatchEmptyConfig` | webhook_handler.py:133-136 | an empty configuration has no side effects |
| `RequestHandler.DispatchOrder` | webhook_handler.py:121-140 | for an accepted request: invocation `i` happens exactly when none before it raised, and is scheduled call `i`; all but the last returned; the request failed exactly when the last one raised |
| `RequestHandler.DispatchWithoutFailure` | webhook_handler.py:133-136 | when nothing raises, every option record is handed to its handler, in key and then list order, and nothing fails |
| `RequestHandler.RepeatedRecordCanFail` | webhook_handler.py:133-139 | two identical `run` records whose effect succeeds once and then fails give two invocations, the second raising, and a failed request |
| `RequestHandler.InvokeOptions` | webhook_handler.py:135-136 | continuing a run in which nothing raised through the option records of key `i`: either one raises, and the steps are the run of the whole schedule, ending with that raise; or none does, and the steps are the run of the first `i + 1` keys, none raising |
| `RequestHandler.InvokeSchedule` | webhook_handler.py:133-136 | the nested loop performs exactly the run of the whole schedule, and reports a raise exactly when one of its steps raised |
| `RequestHandler.HandleRequest` | webhook_handler.py:120-140 | the response is `OK\n` on every path; the invocations performed are those of `Dispatch`; the error is logged exactly when `debug` is set and the request failed |
| `Resource.WHHResource.constructor` | webhook_handler.py:166-170 | the resource keeps the table, debug flag, handler table and `post_only` it is given |
| `Resource.WHHResource.Create` | webhook_handler.py:159-178 | construction raises exactly when a configuration file exists and is unreadable or not an object; otherwise the table is the non-empty table given (updated in place) or a fresh one, holding the merge of the file, or the default print option when debugging with no file and no configuration |
| `Resource.WHHResource.RenderDelete` | webhook_handler.py:180-183 | with `post_only` the response is `OK\n` and nothing is dispatched; otherwise a DELETE dispatch through the default handlers, never logged |
| `Resource.WHHResource.RenderGet` | webhook_handler.py:185-188 | with `post_only` the response is `OK\n` and nothing is dispatched; otherwise a GET dispatch through the default handlers, never logged |
| `Resource.WHHResource.RenderPost` | webhook_handler.py:190-191 | always dispatches a POST through the default handlers, answers `OK\n` and never logs |
| `Resource.WHHResource.RenderPut` | webhook_handler.py:193-196 | with `post_only` the response is `OK\n` and nothing is dispatched; otherwise a PUT dispatch through the default handlers, never logged |
| `Resource.DebugDefaultPrintsOnce` | webhook_handler.py:177-178 | with the table installed for debugging, an accepted request makes exactly one invocation, `printer` with `default_cfg['print']` |
| `Cli.IndexOf` | webhook_handler.py:199-200 | the position found is the first occurrence of the value, or the length exactly when it does not occur |
| `Cli.RewriteArgs` | webhook_handler.py:199-202 | if `--` occurs, its first occurrence becomes `web` and nothing else changes; otherwise `web` is appended; either way `web` is in the list |
| `Cli.TwistdArgv` | webhook_handler.py:199-203 | the list handed to twistd is the arguments with the first `--` replaced by `web` (or `web` appended), followed by `--class res` |
| `Cli.FindFirst` | webhook_handler.py:199-200 | the scan finds the first occurrence of `--`, or the length of the list |
| `Cli.PrepareTwistdArgs` | webhook_handler.py:198-203 | `args` is rewritten in place exactly when it holds `--`, and the list returned is `TwistdArgv` of the original arguments |

## Left out

- The Twisted machinery: `rememberRootURL`, the request object, `getHeader` and `getAllHeaders`. The model takes the Content-Type value, the headers and the path segments as inputs.
- JSON decoding and encoding. The decoded body and the decoded configuration file are inputs, with `None` standing for a decoding or reading error. Numbers are integers, so a float `0.0` is not distinguished.
- `str.format` templating with nested indexing, `os.path.expanduser`, file I/O in `dumper` and `load_config_file`, and running commands through `sh`. These are the `World` parameter: whether each effect succeeds is an input that may depend on the effect and on its position in the request, and the model records which effects were attempted, not what they did to the file system. Templating and `expanduser` are taken to give the same answer throughout a request, so a user handler that changes `os.environ` for the templates of later handlers is not modelled.
- Concurrent requests and the unsynchronised appends they can make to one file.
- Logging through `msg`, `err` and `print`. `HandleRequest` only reports whether `err` would be called; the text of the error message is not modelled.
- The defaults of the constructor read from `WEBHOOK_CFG` and `WEBHOOK_DEBUG` when the module is defined. The file is an input (`ConfigFile`). `debug` is a boolean standing for the truthiness of the value given, so the string `"0"` counts as on, as it does in Python.
- Running `twistd` in `main`. The model stops at the argument list it is given.
- `Lower` changes only ASCII letters. For the Content-Type comparison this gives the same answer as Python's Unicode `str.lower`. Only two non-ASCII characters lower to something holding ASCII letters: U+0130 lowers to two characters, and the Kelvin sign lowers to `k`, which `application/json` does not contain.
- With `python -O`, `assert` statements are removed and the Content-Type guard disappears. The model follows normal execution.
- Dict order: the model uses insertion order, which Python guarantees from 3.7 on. Under the older Pythons listed in setup.py, the order in which keys are dispatched is unspecified.
- A configuration table handed straight to the constructor can hold any Python values in Python. The model's table holds lists of option records, which is what `load_config_file` produces.
- setup.py: packaging metadata only.
