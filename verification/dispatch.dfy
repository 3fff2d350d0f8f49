/**
  URL dispatch (src/lib.rs): test the URL against each handler's pattern in
  configuration order, run the script of the first handler that matches, and
  fall back to the `_default` script when nothing matches or the matched
  script exits unsuccessfully.

  Everything the program asks of the outside world is a field of `World`:
  the configuration directories, the regular-expression engine and the
  operating system's process spawning. The model's result is the program's
  result together with the trace of script processes it started.
 */
module Dispatch {
  import opened Results
  import opened Configuration

  /** What compiling a pattern gives: an error, or a matcher over URLs. */
  datatype Regex = Invalid | Compiled(isMatch: string -> bool)

  /** What starting a program with some arguments and waiting for it gives. */
  datatype Exec = SpawnFailed | WaitFailed | Exited(success: bool)

  /** The oracles the dispatcher consults. */
  datatype World = World(
    dirs: Option<BaseDirs>,
    regex: string -> Regex,
    exec: (string, seq<string>) -> Exec)

  /** One script process that was started: the script's name, its path and its arguments. */
  datatype Invocation = Invocation(script: string, program: string, args: seq<string>)

  /** A result together with the processes started while computing it, in order. */
  datatype Outcome<+T> = Outcome(result: Result<T>, trace: seq<Invocation>)

  const DefaultScript: string := "_default"

  /** The synthetic fallback handler; it is never matched, only run. */
  const DefaultHandler: Handler := Handler("", DefaultScript)

  /** The invocation of handler `h` for `url` started from the program at `path`. */
  function InvocationOf(url: string, h: Handler, path: string): Invocation
  {
    Invocation(h.script, path, [url, h.pattern])
  }

  /** `h`'s pattern compiles and matches `url`. */
  predicate Selects(w: World, url: string, h: Handler)
  {
    w.regex(h.pattern).Compiled? && w.regex(h.pattern).isMatch(url)
  }

  /** `h`'s pattern compiles and does not match `url`. */
  predicate Skips(w: World, url: string, h: Handler)
  {
    w.regex(h.pattern).Compiled? && !w.regex(h.pattern).isMatch(url)
  }

  /**
    Runs `h`'s script with the arguments `url` and `h.pattern`; the value is
    whether the process exited successfully.
   */
  function OpenWithScript(url: string, h: Handler, w: World): (r: Outcome<bool>)
    ensures |r.trace| <= 1
    ensures forall k :: 0 <= k < |r.trace| ==>
      r.trace[k].script == h.script && r.trace[k].args == [url, h.pattern]
    ensures r.result.Ok? ==> |r.trace| == 1 && w.exec(r.trace[0].program, r.trace[0].args) == Exited(r.result.value)
    ensures r.result.Err? ==> r.result.error in {BaseDirError, ScriptNotFound(h.script), SpawnError, WaitError}
    ensures r.result == Err(ScriptNotFound(h.script)) <==> GetScriptPath(w.dirs, h.script) == Ok(None)
    ensures r.trace != [] <==> r.result.Ok? || r.result == Err(WaitError)
    ensures forall k :: 0 <= k < |r.trace| ==> GetScriptPath(w.dirs, h.script) == Ok(Some(r.trace[k].program))
    ensures r.result == Err(BaseDirError) <==> w.dirs.None?
    ensures r.result == Err(SpawnError) ==>
      && GetScriptPath(w.dirs, h.script).Ok? && GetScriptPath(w.dirs, h.script).value.Some?
      && w.exec(GetScriptPath(w.dirs, h.script).value.value, [url, h.pattern]) == SpawnFailed
    ensures r.result == Err(WaitError) ==> w.exec(r.trace[0].program, r.trace[0].args) == WaitFailed
  {
    match GetScriptPath(w.dirs, h.script)
    case Err(e) => Outcome(Err(e), [])
    case Ok(None) => Outcome(Err(ScriptNotFound(h.script)), [])
    case Ok(Some(path)) =>
      var inv := InvocationOf(url, h, path);
      match w.exec(path, inv.args)
      case SpawnFailed => Outcome(Err(SpawnError), [])
      case WaitFailed => Outcome(Err(WaitError), [inv])
      case Exited(success) => Outcome(Ok(success), [inv])
  }

  /**
    Runs the `_default` script with the arguments `url` and "". Its
    unsuccessful exit is an error.
   */
  function OpenWithDefault(url: string, w: World): (r: Outcome<()>)
    ensures |r.trace| <= 1
    ensures forall k :: 0 <= k < |r.trace| ==>
      r.trace[k].script == DefaultScript && r.trace[k].args == [url, ""]
    ensures r.result.Ok? <==> |r.trace| == 1 && w.exec(r.trace[0].program, r.trace[0].args) == Exited(true)
    ensures r.result == Err(DefaultHandlerFailed) <==>
      |r.trace| == 1 && w.exec(r.trace[0].program, r.trace[0].args) == Exited(false)
    ensures r.result.Err? ==>
      r.result.error in {BaseDirError, ScriptNotFound(DefaultScript), SpawnError, WaitError, DefaultHandlerFailed}
    ensures r.result == Err(ScriptNotFound(DefaultScript)) <==> GetScriptPath(w.dirs, DefaultScript) == Ok(None)
    ensures r.result == Err(BaseDirError) <==> w.dirs.None?
    ensures forall k :: 0 <= k < |r.trace| ==> GetScriptPath(w.dirs, DefaultScript) == Ok(Some(r.trace[k].program))
    ensures r.result == Err(SpawnError) ==>
      && GetScriptPath(w.dirs, DefaultScript).Ok? && GetScriptPath(w.dirs, DefaultScript).value.Some?
      && w.exec(GetScriptPath(w.dirs, DefaultScript).value.value, [url, ""]) == SpawnFailed
    ensures r.result == Err(WaitError) ==> |r.trace| == 1 && w.exec(r.trace[0].program, r.trace[0].args) == WaitFailed
  {
    var run := OpenWithScript(url, DefaultHandler, w);
    match run.result
    case Err(e) => Outcome(Err(e), run.trace)
    case Ok(success) => Outcome(if success then Ok(()) else Err(DefaultHandlerFailed), run.trace)
  }

  /**
    What happens once handler `h` has matched: its script runs; a successful
    exit ends dispatch, an unsuccessful one hands the URL to `_default`, and an
    error in running the script propagates without trying `_default`.
   */
  function HandleMatch(url: string, h: Handler, w: World): (r: Outcome<()>)
    ensures |r.trace| <= 2
    ensures |r.trace| >= 1 ==> r.trace[0].script == h.script && r.trace[0].args == [url, h.pattern]
    ensures |r.trace| == 2 ==>
      && w.exec(r.trace[0].program, r.trace[0].args) == Exited(false)
      && r.trace[1].script == DefaultScript && r.trace[1].args == [url, ""]
      && r.result == OpenWithDefault(url, w).result
    ensures r.result.Ok? ==>
      || (|r.trace| == 1 && w.exec(r.trace[0].program, r.trace[0].args) == Exited(true))
      || (|r.trace| == 2 && w.exec(r.trace[1].program, r.trace[1].args) == Exited(true))
    ensures r.result.Err? ==>
      r.result.error in {BaseDirError, ScriptNotFound(h.script), ScriptNotFound(DefaultScript),
                         SpawnError, WaitError, DefaultHandlerFailed}
  {
    var run := OpenWithScript(url, h, w);
    match run.result
    case Err(e) => Outcome(Err(e), run.trace)
    case Ok(true) => Outcome(Ok(()), run.trace)
    case Ok(false) =>
      var fallback := OpenWithDefault(url, w);
      Outcome(fallback.result, run.trace + fallback.trace)
  }

  /**
    Every started process received two arguments, the URL and either a
    pattern of a configured handler whose script it is, or "" for `_default`;
    at most two processes were started, and a second one is always `_default`.
   */
  ghost predicate TraceShape(url: string, hs: seq<Handler>, trace: seq<Invocation>)
  {
    && |trace| <= 2
    && (forall k :: 0 <= k < |trace| ==>
          || (trace[k].script == DefaultScript && trace[k].args == [url, ""])
          || (exists h :: h in hs && trace[k].script == h.script && trace[k].args == [url, h.pattern]))
    && (|trace| == 2 ==> trace[1].script == DefaultScript && trace[1].args == [url, ""])
  }

  /**
    The loop of open_url over the handlers `hs` not examined yet: a pattern is
    compiled only when its handler is reached, and the first match ends the
    loop.
   */
  function Scan(url: string, hs: seq<Handler>, w: World): (r: Outcome<()>)
    ensures TraceShape(url, hs, r.trace)
    ensures r.result.Err? && r.result.error.PatternError? ==>
      r.trace == [] && exists h :: h in hs && h.pattern == r.result.error.pattern && w.regex(h.pattern).Invalid?
    decreases |hs|
  {
    if |hs| == 0 then OpenWithDefault(url, w)
    else
      match w.regex(hs[0].pattern)
      case Invalid => Outcome(Err(PatternError(hs[0].pattern)), [])
      case Compiled(isMatch) =>
        if isMatch(url) then HandleMatch(url, hs[0], w) else Scan(url, hs[1..], w)
  }

  /** open_url: load the configuration, then dispatch `url` over its handlers. */
  function OpenUrl(url: string, file: ConfigFile, w: World): (r: Outcome<()>)
    ensures FromFile(w.dirs, file).Err? ==> r == Outcome(Err(FromFile(w.dirs, file).error), [])
    ensures FromFile(w.dirs, file).Ok? ==> TraceShape(url, FromFile(w.dirs, file).value.handlers, r.trace)
  {
    match FromFile(w.dirs, file)
    case Err(e) => Outcome(Err(e), [])
    case Ok(config) => Scan(url, config.handlers, w)
  }
}
