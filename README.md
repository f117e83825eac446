# Remote plugin contract, modelled in Dafny

This project models the core of the Home Console Python SDK's remote-plugin contract
(`home_console_sdk/remote_plugin.py`). A remote plugin is an HTTP service that the host
("Core") discovers and manages. The SDK's `RemotePluginBase` keeps three pieces of state:
the list of service records, and the two lifecycle flags `loaded` and `started`. Around
that state it offers four things:

- **Service registration.** `register_service` checks that the endpoint starts with `/`.
  It then checks that the upper-cased verb is `GET` or `POST`. If both hold, it appends a
  record with the keys `name`, `endpoint` and `method`, plus `description` when it is non-empty.
  The stored verb is the upper-cased one.
- **Metadata.** `get_metadata` builds the discovery record: the identity, the fixed
  `type = "system"` and `mode = "remote"`, and the current service list.
- **Validation.** `validate_metadata` never raises; it returns a list of diagnostics about
  the name, the version and each service record.
- **Lifecycle handlers.** `create_lifecycle_handlers` wraps the user hooks `on_load`,
  `on_start`, `on_stop` and `on_unload`. A handler changes the flags only when its hook
  returns. An `Exception` from the hook becomes a `{"status": "error"}` response. Any other
  `BaseException` (`asyncio.CancelledError`, `KeyboardInterrupt`, `SystemExit`) is not caught:
  it leaves the handler, no response is sent, and the flags stay as they were.

Modules:

- `Strings`: the Python `str` operations used here (`startswith`, `upper`, `count`).
- `Services`: building one service record (`NewService`), with the two configuration errors.
- `Metadata`: the plugin identity and the discovery record.
- `Validation`: what `validate_metadata` reports, written as functions, plus the lemmas
  linking it to registration. The main one, `RegistryPassesValidation`, says that a list
  built only by registration never draws a per-service diagnostic.
- `Lifecycle`: the flag transitions (`Next`), the handler responses (`Reply`), and lemmas
  about sequences of handler calls: idempotence, failed calls leave no trace, stop/start cycles.
- `RemotePlugin`: the class `RemotePluginBase` with fields `services`, `loaded` and `started`.
  Its methods are proved against the functions above. `MetricsPluginExample` is a client.
  It builds the module documentation's plugin (`remote_metrics` at "0.1.0", which registers
  `metrics.report`, lines 19-26). It then adds the `metrics.dump` registration documented
  at lines 270-275, and makes two calls that lines 287-291 refuse.

Inputs the model takes as parameters:

- Each user hook's outcome is a `HookResult`: `Completed`; `Raised(message)` for an
  `Exception` whose `str` is `message`; or `Escaped` for an exception that is not an
  `Exception`. The base class's `on_unload` does nothing
  (lines 177-195), so unless a plugin overrides it, its outcome is `Completed`.
- The plugin's class attributes (`name`, `version`, `description`, `author`) are an
  `Identity` passed to the constructor.

Where the code's own documentation and its behaviour differ, the model follows the behaviour:

- `on_unload`'s docstring says the hook is called after `on_stop`, and that an exception it
  raises is logged and does not block (lines 183-185). The handler (lines 483-490) logs
  nothing and checks no order. It answers `status: "error"` and leaves both flags as they
  were. `Lifecycle.NoStateMachineGuard` states this behaviour.
- `on_start`'s docstring says it is called after `on_load` (line 139). The start handler sets
  `started` whatever `loaded` is (line 470). So a `start` before any `load` gives `started`
  true with `loaded` still false.
- `register_service`'s docstring says a service name must be unique within the host runtime
  (line 239). The method appends without looking at the names already there (line 302), and
  the model does not check either.
- `validate_metadata`'s docstring asks for an X.Y.Z version (line 363). The check (line 385)
  only counts dots, and skips an empty version, which draws no diagnostic.
- `health`'s docstring gives the default answer as `"loaded": True, "started": True`
  (line 207). The method returns the current flags (lines 215-216), and so does `Health`.
- The `create_lifecycle_handlers` docstring says every handler answers JSON with a
  `"status"` field and answers 500 on an error (lines 449-450). The metadata handler answers
  the metadata, which has no `status` (line 454). A hook's `Exception` gives an ordinary answer
  whose status is "error" (`Lifecycle.Reply`); the model has no HTTP status codes.

## Model

| member | source | states |
|---|---|---|
| `Strings.CountChar` | home_console_sdk/remote_plugin.py:385 | `str.count` of one character: at most the length, and zero exactly when the character does not occur |
| `Strings.UpperChar` | home_console_sdk/remote_plugin.py:290 | in the model's partial map, each character upper-cases to one or two characters (Python's full map can give three, as for U+FB03) |
| `Strings.Upper` | home_console_sdk/remote_plugin.py:290 | the model's `upper` is at least as long as its input and at most twice as long; these are bounds of its partial map, not of Python's `str.upper` |
| `Strings.UpperAscii` | home_console_sdk/remote_plugin.py:296 | on ASCII text, `upper` keeps the length and changes exactly the letters a-z to A-Z |
| `Strings.UpperAppend` | home_console_sdk/remote_plugin.py:296 | upper-casing a concatenation upper-cases each part |
| `Strings.UpperIdempotent` | home_console_sdk/remote_plugin.py:296 | upper-casing twice gives the same string as once |
| `Services.NewService` | home_console_sdk/remote_plugin.py:287-300 | a registration is accepted iff the endpoint starts with "/" and the upper-cased verb is GET or POST; the endpoint check comes first and each refusal carries the rejected argument; an accepted record has exactly the keys name, endpoint and method, plus description iff the description is non-empty; it stores the name, the endpoint, the upper-cased verb and the description |
| `Services.StoredMethodIsNormal` | home_console_sdk/remote_plugin.py:296 | the stored verb is GET or POST and is its own upper-case form |
| `Services.AcceptedExamples` | home_console_sdk/remote_plugin.py:251-275 | the three documented registrations (`logger.log`, `metrics.report`, `metrics.dump`) are accepted and stored with their descriptions |
| `Services.CaseAndDescriptionExamples` | home_console_sdk/remote_plugin.py:290-300 | "get" is accepted and stored as "GET"; with no description the record has only the three required keys |
| `Services.RejectedExamples` | home_console_sdk/remote_plugin.py:287-291 | an endpoint without a leading slash (the empty one included) and the verb PUT are refused with the matching error |
| `Services.NonAsciiVerbExamples` | home_console_sdk/remote_plugin.py:290 | verbs whose Python upper-case form is POST through a long s or an "st" ligature are accepted and stored as "POST" |
| `Validation.EntryDiagnosticsEmptyIff` | home_console_sdk/remote_plugin.py:396-407 | one record draws no diagnostic iff it has the keys name, endpoint and method, its endpoint starts with "/" and its method is exactly GET or POST |
| `Validation.EntryDiagnosticsAreIndexed` | home_console_sdk/remote_plugin.py:396-407 | every diagnostic of record `i` is a per-service one and names index `i` |
| `Validation.ServiceDiagnosticsAppend` | home_console_sdk/remote_plugin.py:391-407 | one more record adds exactly that record's diagnostics, at the end |
| `Validation.DiagnosticsAppend` | home_console_sdk/remote_plugin.py:379-409 | the same for the whole diagnostic list, identity part included |
| `Validation.ServiceDiagnosticsExactly` | home_console_sdk/remote_plugin.py:391-407 | the per-service part holds exactly the diagnostics of the individual records, each naming an existing index |
| `Validation.ServiceDiagnosticsEmptyIff` | home_console_sdk/remote_plugin.py:391-407 | no per-service diagnostic iff every record is well formed |
| `Validation.NameDiagnosticIff` | home_console_sdk/remote_plugin.py:381-382 | the name diagnostic is reported iff the name is empty or "unknown_plugin" |
| `Validation.VersionDiagnosticIff` | home_console_sdk/remote_plugin.py:385-386 | the version diagnostic is reported iff the version is non-empty with fewer than two dots; it quotes the version, and no other version diagnostic appears |
| `Validation.ProducedIsWellFormed` | home_console_sdk/remote_plugin.py:293-300 | every record a successful registration stores is well formed and draws no diagnostic |
| `Validation.RegistryPassesValidation` | home_console_sdk/remote_plugin.py:379-409 | if every record came from a successful registration, validation reports only name and version problems |
| `Validation.PlaceholderExample` | home_console_sdk/remote_plugin.py:381-382 | the placeholder name "unknown_plugin" draws a name diagnostic |
| `Validation.DefaultIdentityExample` | home_console_sdk/remote_plugin.py:85-86 | the class defaults draw the name diagnostic alone, since "0.0.0" has two dots |
| `Validation.MetricsIdentityExample` | home_console_sdk/remote_plugin.py:381-386 | "metrics" at "1.0.0" with no services gives an empty list |
| `Validation.DocumentedIdentityExample` | home_console_sdk/remote_plugin.py:20-21 | the documented "remote_metrics" at "0.1.0" with no services gives an empty list |
| `Validation.VersionExamples` | home_console_sdk/remote_plugin.py:385-386 | "1.0" draws the version diagnostic, quoting it; an empty version draws nothing |
| `Lifecycle.Next` | home_console_sdk/remote_plugin.py:459-490 | when the hook raises (an `Exception` or any other exception), the flags are unchanged; when it returns, load sets loaded, start sets started, stop clears started and unload clears both, and the other flag is untouched |
| `Lifecycle.Reply` | home_console_sdk/remote_plugin.py:459-490 | the handler answers iff the hook returned or raised an `Exception`; the status is "ok" iff the hook returned; on an `Exception` it is "error" and the message is the exception's text; any other exception gives no answer |
| `Lifecycle.NextIdempotent` | home_console_sdk/remote_plugin.py:459-490 | repeating a successful handler call leaves the flags where the first call put them |
| `Lifecycle.RunAppend` | home_console_sdk/remote_plugin.py:459-490 | running two call sequences one after the other is running their concatenation |
| `Lifecycle.RunIgnoresFailures` | home_console_sdk/remote_plugin.py:464-490 | the flags after any sequence of calls equal the flags after its successful calls alone |
| `Lifecycle.RunRepeatedSuccess` | home_console_sdk/remote_plugin.py:459-490 | any positive number of successful calls of one handler has the effect of one call |
| `Lifecycle.RestartCyclesEndStarted` | home_console_sdk/remote_plugin.py:467-481 | after one or more successful stop/start cycles the plugin is started and `loaded` is unchanged |
| `Lifecycle.NoStateMachineGuard` | home_console_sdk/remote_plugin.py:467-490 | a start before any load sets started with loaded false; a failing unload keeps both flags and answers "error" with the exception's text; an escaping exception gives no answer and keeps the flags |
| `RemotePlugin.RemotePluginBase.constructor` | home_console_sdk/remote_plugin.py:94-104 | a new plugin has no services and both flags false |
| `RemotePlugin.RemotePluginBase.RegisterService` | home_console_sdk/remote_plugin.py:222-302 | a refused call returns its configuration error and leaves the list unchanged; an accepted call appends exactly the new record at the end, so earlier records and their order stay; every record in the list still comes from a successful registration |
| `RemotePlugin.RemotePluginBase.GetMetadata` | home_console_sdk/remote_plugin.py:343-351 | the record has type "system", mode "remote", the identity's four fields, and exactly the current service list; the flags do not enter it |
| `RemotePlugin.RemotePluginBase.Health` | home_console_sdk/remote_plugin.py:213-218 | status "ok" and the current values of both flags |
| `RemotePlugin.RemotePluginBase.ValidateMetadata` | home_console_sdk/remote_plugin.py:379-409 | the loop returns exactly the name and version diagnostics followed by every record's diagnostics in list order |
| `RemotePlugin.RemotePluginBase.ValidRegistryPasses` | home_console_sdk/remote_plugin.py:379-409 | on an object whose list was built only by `RegisterService`, validation reports only name and version problems |
| `RemotePlugin.RemotePluginBase.CheckIdentity` | home_console_sdk/remote_plugin.py:381-386 | the name check then the version check give the identity part of the diagnostics |
| `RemotePlugin.RemotePluginBase.CheckEntry` | home_console_sdk/remote_plugin.py:396-407 | the five checks of one loop iteration give that record's diagnostics, in order |
| `RemotePlugin.RemotePluginBase.MetadataHandler` | home_console_sdk/remote_plugin.py:453-454 | answers the current metadata and changes nothing |
| `RemotePlugin.RemotePluginBase.HealthHandler` | home_console_sdk/remote_plugin.py:456-457 | answers the current health report and changes nothing |
| `RemotePlugin.RemotePluginBase.LoadHandler` | home_console_sdk/remote_plugin.py:459-465 | the flags move as `Next` says for load; the result is `Reply` for load; the service list, the metadata and `Valid()` are untouched |
| `RemotePlugin.RemotePluginBase.StartHandler` | home_console_sdk/remote_plugin.py:467-473 | the same for start; `loaded` is not consulted |
| `RemotePlugin.RemotePluginBase.StopHandler` | home_console_sdk/remote_plugin.py:475-481 | the same for stop |
| `RemotePlugin.RemotePluginBase.UnloadHandler` | home_console_sdk/remote_plugin.py:483-490 | the same for unload; a failing hook answers "error" and leaves both flags set as they were |
| `RemotePlugin.MetricsPluginExample` | home_console_sdk/remote_plugin.py:19-26 | the documented `remote_metrics` plugin at "0.1.0" registers `metrics.report`, then `metrics.dump` as at lines 270-275; the list holds the two records in call order; a call without a leading slash and a PUT call change nothing; validation gives an empty list |

## Left out

- `async`/`await` and what the user hooks do (lines 108-195). Each hook is reduced to its outcome, a `HookResult` parameter.
- The handler dictionary that `create_lifecycle_handlers` returns (lines 492-499). The six handlers are methods of the class instead.
- The `timestamp` of `health` (line 217), since it comes from the wall clock. Also left out: a subclass overriding `health`, `type` or `mode`; the model fixes them to the base class's values.
- The `isinstance` checks "services must be a list" and "Service i is not a dict" (lines 388-393). The typed model cannot reach them. The missing-key checks are kept, because records are maps.
- The text of the error messages. Diagnostics and configuration errors are datatypes that carry the values the messages quote.
- Exceptions are not raised. `register_service`'s `ValueError` becomes a returned `ConfigError`.
- Arguments that are not strings are not modelled, e.g. `None` for an endpoint, on which Python raises `AttributeError`. Every argument is a string in the model.
- Aliasing: `get_metadata` returns the `_services` list itself, not a copy, so a caller who mutates the result also changes the plugin. The model returns the list as a value. A subclass that writes to `_services` directly is outside `Valid()`.
- Strings.UpperChar: maps only a-z (to A-Z), U+017F (to "S"), U+FB05 and U+FB06 (to "ST") as Python does. Every other character comes back unchanged, whatever Python's `str.upper` does with it (for example "é" to "É", "ß" to "SS"). The reason is the one given for `Strings.Upper` on the next line.
- Strings.Upper: only a-z, U+017F, U+FB05 and U+FB06 are mapped as Python maps them. These are meant to be every character whose Python upper-case form is a substring of "GET" or "POST". If one were missed, the model would refuse a verb that Python accepts. Every other character is left unchanged. Python upper-cases many of them, for example "é" to "É", "ß" to "SS" and U+FB03 to "FFI". None of those forms can occur in "GET" or "POST", so this changes neither which verbs are accepted nor what is stored.
- Concurrency: the code has no locking, and the model is sequential.
- `home_console_sdk/plugin.py`, `home_console_sdk/__init__.py` and `setup.py` are not part of this model. They hold environment reads, the HTTP client, logging, the `run` loop, re-exports and packaging.
