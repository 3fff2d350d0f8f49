# open-url dispatch, modelled in Dafny

open-url opens a URL by handing it to a user script. Its configuration,
`config.toml` in the per-application configuration directory, is an ordered
list of handlers, each a regular-expression `pattern` and a `script` name.
Dispatch tests the URL against the patterns in order and compiles each
pattern only when its handler is reached. The first handler whose pattern
matches has its script (`scripts/<script>` under the configuration
directory) run with two arguments: the URL and the pattern. If that script
exits unsuccessfully, or no pattern matches, the reserved script `_default`
runs instead, with the URL and an empty pattern. An invalid pattern reached
before any match, a configuration that cannot be loaded, and a script that
cannot be found, started or waited for are all errors. So is a `_default`
that exits unsuccessfully.

Files:

- `results.dfy` (`Results`): `Option`, `Result` and the error kinds.
- `configuration.dfy` (`Configuration`): `Handler` and `Config` records,
  loading the configuration (`FromFile`) and finding a script's path
  (`GetScriptPath`).
- `dispatch.dfy` (`Dispatch`): the oracles (`World`), the trace of started
  processes (`Invocation`, `Outcome`), and `OpenWithScript`,
  `OpenWithDefault`, `HandleMatch`, `Scan` and `OpenUrl`.
- `properties.dfy` (`DispatchProperties`): a reference description of which
  handler wins (`NoneMatch`, `FirstMatchAt`, `FirstInvalidAt`) and the
  lemmas relating dispatch to it.
- `open_url_loop.dfy` (`OpenUrlLoop`): open_url written as the program writes
  it, a loop with early returns, proved equal to the recursive model.

The outside world is a `World` value with three oracles:

- `dirs` stands for the configuration directories. It is `None` when they
  cannot be determined; otherwise `find` maps a relative name to the path of
  an existing file.
- `regex` stands for the regular-expression engine. It maps a pattern to
  `Invalid` or to a matcher.
- `exec` stands for the operating system. It maps a program path and its
  arguments to `SpawnFailed`, `WaitFailed` or `Exited(success)`.

What reading and decoding an existing config.toml gives is a `ConfigFile`
value: unreadable, malformed, or the parsed `Config`.

A dispatch returns an `Outcome`: the program's result plus the trace of
script processes it started, in order. A process counts as started when
spawning it succeeded. So a script that is not found, or whose spawn fails,
leaves no entry. A script whose wait fails does leave one.

The default handler always receives an empty pattern, even after a matched
handler's script failed (src/lib.rs:13-16, 52); `GithubFallbackScenario`
shows this in a concrete case. Likewise, an invalid pattern is
an error only when it is reached before any pattern matches: patterns are
compiled inside the loop (src/lib.rs:43-45), so one after the first match is
never looked at
(`LaterHandlersIgnored`, `PatternErrorIffInvalidFirst`).

## Model

| member | source | states |
|---|---|---|
| Configuration.FromFile | src/config.rs:24-35 | Loading succeeds exactly when the configuration directory is known and config.toml is either absent or parses. A missing config.toml gives the empty handler list. A present one gives its parsed contents. Every failure is one of the three configuration errors. |
| Configuration.GetScriptPath | src/config.rs:37-41 | Looking up a script fails exactly when the configuration directory is unknown. Otherwise it is the lookup of `scripts/<name>`, which may find nothing. |
| Dispatch.OpenWithScript | src/lib.rs:25-39 | At most one process starts. It runs the program found for the handler's script under scripts/, with exactly the arguments (url, pattern). An Ok value is the exit success of that process. The result is BaseDirError exactly when the configuration directory is unknown, and ScriptNotFound for this script exactly when the lookup finds no file. SpawnError means the found program failed to spawn; WaitError means it started and waiting for it failed. A process was started exactly when the result is Ok or a wait error. |
| DispatchProperties.ScriptOutcome | src/lib.rs:30-38 | For a found script, the oracle's answer for (path, [url, pattern]) decides the outcome. A spawn failure is SpawnError with nothing started. A wait failure is WaitError with the one started process. An exit gives Ok with its success flag and the one started process. |
| Dispatch.OpenWithDefault | src/lib.rs:10-23 | Only `_default` runs, at most once, with the arguments (url, ""), from the program found at scripts/_default. The result is Ok exactly when it ran and exited successfully, and DefaultHandlerFailed exactly when it ran and exited unsuccessfully. It is ScriptNotFound("_default") exactly when no scripts/_default exists, and BaseDirError exactly when the configuration directory is unknown. SpawnError means the found program failed to spawn; WaitError means waiting for it failed. |
| Dispatch.HandleMatch | src/lib.rs:50-53 | At most two processes run. The first is the matched handler's script with (url, pattern). A second one exists only if the first exited unsuccessfully. The second is `_default` with (url, ""), and the result is then the default's result. Ok means the last process exited successfully. |
| Dispatch.Scan | src/lib.rs:43-58 | At most two processes run for any handler list. Each gets two arguments: the URL and either a configured handler's pattern (running that handler's script) or "" (running `_default`). A second process is always `_default`. A pattern error starts nothing and names an invalid pattern from the list. |
| Dispatch.OpenUrl | src/lib.rs:41-59 | A configuration that fails to load gives that error and starts no process. Otherwise the trace has the shape Scan promises for the loaded handlers. |
| DispatchProperties.ScanCases | src/lib.rs:43-57 | Every handler list falls into one of three cases. Either all patterns compile and miss the URL, or some handler is the first to match, or some handler is the first with an invalid pattern. |
| DispatchProperties.CasesExclusive | src/lib.rs:43-53 | The three cases exclude each other, and the first match and the first invalid pattern are unique. |
| DispatchProperties.ScanNoMatch | src/lib.rs:58 | When no pattern matches, including the empty list, dispatch is exactly running `_default` with (url, ""). |
| DispatchProperties.ScanFirstMatch | src/lib.rs:43-53 | When handler i is the first match, dispatch is exactly the handling of handler i. No other handler's script runs. |
| DispatchProperties.ScanFirstInvalid | src/lib.rs:44 | An invalid pattern reached before any match makes dispatch fail with that pattern's error and start no process. |
| DispatchProperties.PatternErrorIffInvalidFirst | src/lib.rs:44-50 | Dispatch fails with a pattern error if and only if an invalid pattern comes before the first match. Invalid patterns after the first match never surface. |
| DispatchProperties.LaterHandlersIgnored | src/lib.rs:43-53 | Replacing every handler after the first match with any other handlers, valid or not, leaves the outcome unchanged. Those handlers are neither compiled nor run. |
| DispatchProperties.MatchedScriptSucceeds | src/lib.rs:50-51 | If the matched script exits successfully, the result is Ok and the trace is exactly that one invocation. `_default` does not run. |
| DispatchProperties.MatchedScriptFailsFallsBack | src/lib.rs:50-52 | If the matched script exits unsuccessfully, `_default` runs once right after it with (url, ""). No later handler is tried. The overall result equals the default's result. |
| DispatchProperties.MatchedScriptErrorPropagates | src/lib.rs:27-50 | If the matched script cannot be found, started or waited for, that error is dispatch's result. Only that script appears in the trace, and `_default` is not attempted. A missing script gives ScriptNotFound naming it, with an empty trace. |
| DispatchProperties.DefaultOutcome | src/lib.rs:10-22 | An installed `_default` is started once with (url, ""). A spawn failure gives SpawnError with nothing started, and a wait failure gives WaitError. A successful exit gives Ok; an unsuccessful exit gives DefaultHandlerFailed. |
| DispatchProperties.NoMatchWithoutDefault | src/lib.rs:58 | When no pattern matches and no scripts/_default exists, dispatch fails with ScriptNotFound("_default") and starts no process. |
| DispatchProperties.ConfigErrorRunsNothing | src/lib.rs:42 | A configuration load error makes open_url fail before any script runs. |
| DispatchProperties.MissingConfigRunsDefault | src/config.rs:26-28 | Without a config.toml, open_url is exactly running `_default`. |
| DispatchProperties.OpenUrlCases | src/lib.rs:41-58 | For a loaded configuration, open_url in each of the three cases is, in turn: running `_default`, handling the first matching handler, or the first invalid pattern's error with no process started. |
| DispatchProperties.GithubFallbackScenario | src/lib.rs:13-16 | Concrete case: a GitHub handler's script exits unsuccessfully. `_default` then gets ("https://github.com/x", ""), not the matched pattern, and its success makes the result Ok. |
| DispatchProperties.GithubNoMatchScenario | src/lib.rs:58 | Concrete case: a URL the GitHub pattern misses runs only `_default`, with ("https://example.com", ""). |
| OpenUrlLoop.OpenUrlIterative | src/lib.rs:41-59 | The loop with early returns computes the same result and starts the same processes as the recursive model. It starts at most two processes, each with two arguments, the first being the URL. |

## Left out

- Command-line parsing, the verbosity flag and error-report installation
  (src/cli.rs, src/main.rs): argument and library glue with no decision
  logic. The URL is a parameter of `OpenUrl`.
- Logging (`debug!`, `trace!`): no effect on the result.
- Error message wording: errors keep their kind, plus the pattern or script
  name where a caller can observe it.
- Locating the XDG directories, reading config.toml and decoding TOML
  (src/config.rs:19-35): file-system I/O and a foreign decoder. They appear
  as the `dirs` oracle and a `ConfigFile` value.
- The regular-expression engine: a foreign library, modelled as the `regex`
  oracle. Compiling a pattern may depend only on the pattern, and matching
  only on the URL.
- Spawning and waiting for processes: operating-system I/O, modelled as the
  `exec` oracle. A script that never exits blocks the program forever; the
  model has no notion of time and gives every `exec` call an outcome.
- The oracles are fixed for one dispatch. `exec` answers by program path and
  arguments alone, so two runs of the same program with the same arguments
  end the same way. `find` does not change either, so a script cannot
  create or delete files under scripts/ that a later lookup in the same
  dispatch would see. The program has neither guarantee: a second run may
  end differently, and the matched script could install or remove
  `_default` before the fallback lookup (src/lib.rs:52, 27).
- A handler whose script is itself named `_default` gets no special
  treatment, in the program or in the model. If it fails, the fallback
  looks up and starts `_default` again. Because of the item above, when the
  handler's pattern is also "" the model gives that second run the same
  exit as the first.
