/**
  Properties of URL dispatch, stated against a reference description of
  which handler wins: either every handler's pattern compiles and misses the
  URL, or some handler is the first whose pattern does not compile, or some
  handler is the first whose pattern matches.
 */
module DispatchProperties {
  import opened Results
  import opened Configuration
  import opened Dispatch

  /** Every handler's pattern compiles and none matches `url`. */
  ghost predicate NoneMatch(w: World, url: string, hs: seq<Handler>)
  {
    forall j :: 0 <= j < |hs| ==> Skips(w, url, hs[j])
  }

  /** `hs[i]` is the first handler whose pattern matches `url`; all before it compile and miss. */
  ghost predicate FirstMatchAt(w: World, url: string, hs: seq<Handler>, i: int)
  {
    && 0 <= i < |hs|
    && (forall j :: 0 <= j < i ==> Skips(w, url, hs[j]))
    && Selects(w, url, hs[i])
  }

  /** `hs[i]` has an invalid pattern and every handler before it compiles and misses `url`. */
  ghost predicate FirstInvalidAt(w: World, url: string, hs: seq<Handler>, i: int)
  {
    && 0 <= i < |hs|
    && (forall j :: 0 <= j < i ==> Skips(w, url, hs[j]))
    && w.regex(hs[i].pattern).Invalid?
  }

  /** Every handler list falls in one of the three cases. */
  lemma {:induction false} ScanCases(w: World, url: string, hs: seq<Handler>)
    ensures || NoneMatch(w, url, hs)
            || (exists i :: FirstMatchAt(w, url, hs, i))
            || (exists i :: FirstInvalidAt(w, url, hs, i))
    decreases |hs|
  {
    if |hs| > 0 && Skips(w, url, hs[0]) {
      ScanCases(w, url, hs[1..]);
      if NoneMatch(w, url, hs[1..]) {
        forall j | 0 <= j < |hs| ensures Skips(w, url, hs[j]) {
          if j > 0 { assert hs[j] == hs[1..][j - 1]; }
        }
      } else if i :| FirstMatchAt(w, url, hs[1..], i) {
        forall j | 0 <= j < i + 1 ensures Skips(w, url, hs[j]) {
          if j > 0 { assert hs[j] == hs[1..][j - 1]; }
        }
        assert FirstMatchAt(w, url, hs, i + 1);
      } else {
        var i :| FirstInvalidAt(w, url, hs[1..], i);
        forall j | 0 <= j < i + 1 ensures Skips(w, url, hs[j]) {
          if j > 0 { assert hs[j] == hs[1..][j - 1]; }
        }
        assert FirstInvalidAt(w, url, hs, i + 1);
      }
    } else if |hs| > 0 && Selects(w, url, hs[0]) {
      assert FirstMatchAt(w, url, hs, 0);
    } else if |hs| > 0 {
      assert FirstInvalidAt(w, url, hs, 0);
    }
  }

  /** The three cases exclude each other, and each names at most one handler. */
  lemma CasesExclusive(w: World, url: string, hs: seq<Handler>, i: int, i': int)
    ensures FirstMatchAt(w, url, hs, i) && FirstMatchAt(w, url, hs, i') ==> i == i'
    ensures FirstInvalidAt(w, url, hs, i) && FirstInvalidAt(w, url, hs, i') ==> i == i'
    ensures !(FirstMatchAt(w, url, hs, i) && FirstInvalidAt(w, url, hs, i'))
    ensures NoneMatch(w, url, hs) ==> !FirstMatchAt(w, url, hs, i) && !FirstInvalidAt(w, url, hs, i)
  {
  }

  /** When no handler matches (in particular when there are none), only `_default` runs. */
  lemma {:induction false} ScanNoMatch(w: World, url: string, hs: seq<Handler>)
    requires NoneMatch(w, url, hs)
    ensures Scan(url, hs, w) == OpenWithDefault(url, w)
    decreases |hs|
  {
    if |hs| > 0 {
      assert Skips(w, url, hs[0]);
      assert NoneMatch(w, url, hs[1..]) by {
        forall j | 0 <= j < |hs[1..]| ensures Skips(w, url, hs[1..][j]) {
          assert hs[1..][j] == hs[j + 1];
        }
      }
      ScanNoMatch(w, url, hs[1..]);
    }
  }

  /** Dispatch behaves exactly as the handling of the first matching handler. */
  lemma {:induction false} ScanFirstMatch(w: World, url: string, hs: seq<Handler>, i: int)
    requires FirstMatchAt(w, url, hs, i)
    ensures Scan(url, hs, w) == HandleMatch(url, hs[i], w)
    decreases i
  {
    if i > 0 {
      assert Skips(w, url, hs[0]);
      assert FirstMatchAt(w, url, hs[1..], i - 1) by {
        forall j | 0 <= j < i - 1 ensures Skips(w, url, hs[1..][j]) {
          assert hs[1..][j] == hs[j + 1];
        }
      }
      ScanFirstMatch(w, url, hs[1..], i - 1);
    }
  }

  /** An invalid pattern reached before any match aborts dispatch before any script runs. */
  lemma {:induction false} ScanFirstInvalid(w: World, url: string, hs: seq<Handler>, i: int)
    requires FirstInvalidAt(w, url, hs, i)
    ensures Scan(url, hs, w) == Outcome(Err(PatternError(hs[i].pattern)), [])
    decreases i
  {
    if i > 0 {
      assert Skips(w, url, hs[0]);
      assert FirstInvalidAt(w, url, hs[1..], i - 1) by {
        forall j | 0 <= j < i - 1 ensures Skips(w, url, hs[1..][j]) {
          assert hs[1..][j] == hs[j + 1];
        }
      }
      ScanFirstInvalid(w, url, hs[1..], i - 1);
    }
  }

  /**
    Dispatch fails with a pattern error exactly when an invalid pattern is
    reached before any pattern matches; an invalid pattern after the first
    match never surfaces.
   */
  lemma PatternErrorIffInvalidFirst(w: World, url: string, hs: seq<Handler>)
    ensures (Scan(url, hs, w).result.Err? && Scan(url, hs, w).result.error.PatternError?)
        <==> exists i :: FirstInvalidAt(w, url, hs, i)
  {
    ScanCases(w, url, hs);
    if NoneMatch(w, url, hs) {
      ScanNoMatch(w, url, hs);
      forall i | FirstInvalidAt(w, url, hs, i) ensures false {
        CasesExclusive(w, url, hs, i, i);
      }
    } else if i :| FirstMatchAt(w, url, hs, i) {
      ScanFirstMatch(w, url, hs, i);
      forall i' | FirstInvalidAt(w, url, hs, i') ensures false {
        CasesExclusive(w, url, hs, i, i');
      }
    } else {
      var i :| FirstInvalidAt(w, url, hs, i);
      ScanFirstInvalid(w, url, hs, i);
    }
  }

  /**
    Handlers after the first match are never examined: replacing them by any
    others, with valid or invalid patterns, does not change the outcome.
   */
  lemma LaterHandlersIgnored(w: World, url: string, hs: seq<Handler>, i: int, rest: seq<Handler>)
    requires FirstMatchAt(w, url, hs, i)
    ensures Scan(url, hs[..i + 1] + rest, w) == Scan(url, hs, w)
  {
    var hs' := hs[..i + 1] + rest;
    assert forall j :: 0 <= j <= i ==> hs'[j] == hs[j];
    assert FirstMatchAt(w, url, hs', i);
    ScanFirstMatch(w, url, hs', i);
    ScanFirstMatch(w, url, hs, i);
  }

  /** A successful exit of the matched script ends dispatch with Ok, and only that script ran. */
  lemma MatchedScriptSucceeds(w: World, url: string, hs: seq<Handler>, i: int, path: string)
    requires FirstMatchAt(w, url, hs, i)
    requires GetScriptPath(w.dirs, hs[i].script) == Ok(Some(path))
    requires w.exec(path, [url, hs[i].pattern]) == Exited(true)
    ensures Scan(url, hs, w) == Outcome(Ok(()), [InvocationOf(url, hs[i], path)])
  {
    ScanFirstMatch(w, url, hs, i);
  }

  /**
    An unsuccessful exit of the matched script hands the URL to `_default`
    exactly once, with arguments (url, ""), and dispatch ends with the
    default's result; no later handler is tried.
   */
  lemma MatchedScriptFailsFallsBack(w: World, url: string, hs: seq<Handler>, i: int, path: string)
    requires FirstMatchAt(w, url, hs, i)
    requires GetScriptPath(w.dirs, hs[i].script) == Ok(Some(path))
    requires w.exec(path, [url, hs[i].pattern]) == Exited(false)
    ensures Scan(url, hs, w).result == OpenWithDefault(url, w).result
    ensures Scan(url, hs, w).trace == [InvocationOf(url, hs[i], path)] + OpenWithDefault(url, w).trace
  {
    ScanFirstMatch(w, url, hs, i);
  }

  /**
    A failure to find, start or wait for the matched script is dispatch's
    error, and `_default` is not attempted.
   */
  lemma MatchedScriptErrorPropagates(w: World, url: string, hs: seq<Handler>, i: int)
    requires FirstMatchAt(w, url, hs, i)
    requires OpenWithScript(url, hs[i], w).result.Err?
    ensures Scan(url, hs, w).result == Err(OpenWithScript(url, hs[i], w).result.error)
    ensures Scan(url, hs, w).trace == OpenWithScript(url, hs[i], w).trace
    ensures forall k :: 0 <= k < |Scan(url, hs, w).trace| ==>
      Scan(url, hs, w).trace[k].script == hs[i].script
    ensures GetScriptPath(w.dirs, hs[i].script) == Ok(None) ==>
      Scan(url, hs, w) == Outcome(Err(ScriptNotFound(hs[i].script)), [])
  {
    ScanFirstMatch(w, url, hs, i);
  }

  /**
    Once a script's file is found, what happens to the process started from
    it decides the result: a spawn failure is an error with nothing started,
    a wait failure is an error after the process started, and an exit gives
    its success flag.
   */
  lemma ScriptOutcome(w: World, url: string, h: Handler, path: string)
    requires GetScriptPath(w.dirs, h.script) == Ok(Some(path))
    ensures w.exec(path, [url, h.pattern]) == SpawnFailed ==>
      OpenWithScript(url, h, w) == Outcome(Err(SpawnError), [])
    ensures w.exec(path, [url, h.pattern]) == WaitFailed ==>
      OpenWithScript(url, h, w) == Outcome(Err(WaitError), [InvocationOf(url, h, path)])
    ensures w.exec(path, [url, h.pattern]).Exited? ==>
      OpenWithScript(url, h, w) == Outcome(Ok(w.exec(path, [url, h.pattern]).success), [InvocationOf(url, h, path)])
  {
  }

  /**
    An installed `_default` is started once with (url, ""): a spawn or wait
    failure is that error, a successful exit gives Ok and an unsuccessful one
    gives DefaultHandlerFailed.
   */
  lemma DefaultOutcome(w: World, url: string, path: string)
    requires GetScriptPath(w.dirs, DefaultScript) == Ok(Some(path))
    ensures w.exec(path, [url, ""]) == SpawnFailed ==> OpenWithDefault(url, w) == Outcome(Err(SpawnError), [])
    ensures w.exec(path, [url, ""]) == WaitFailed ==>
      OpenWithDefault(url, w) == Outcome(Err(WaitError), [Invocation(DefaultScript, path, [url, ""])])
    ensures w.exec(path, [url, ""]).Exited? ==>
      && OpenWithDefault(url, w).trace == [Invocation(DefaultScript, path, [url, ""])]
      && OpenWithDefault(url, w).result ==
           if w.exec(path, [url, ""]).success then Ok(()) else Err(DefaultHandlerFailed)
  {
    ScriptOutcome(w, url, DefaultHandler, path);
  }

  /**
    No pattern matches and no `_default` is installed: dispatch fails with
    ScriptNotFound("_default") and starts nothing.
   */
  lemma NoMatchWithoutDefault(w: World, url: string, hs: seq<Handler>)
    requires NoneMatch(w, url, hs)
    requires GetScriptPath(w.dirs, DefaultScript) == Ok(None)
    ensures Scan(url, hs, w) == Outcome(Err(ScriptNotFound(DefaultScript)), [])
  {
    ScanNoMatch(w, url, hs);
  }

  /** A configuration that cannot be loaded aborts before any script runs. */
  lemma ConfigErrorRunsNothing(w: World, url: string, file: ConfigFile)
    requires FromFile(w.dirs, file).Err?
    ensures OpenUrl(url, file, w).result.Err?
    ensures OpenUrl(url, file, w).trace == []
  {
  }

  /** Without a config.toml there are no handlers, so only `_default` runs. */
  lemma MissingConfigRunsDefault(w: World, url: string, file: ConfigFile)
    requires w.dirs.Some? && w.dirs.value.find(ConfigFileName).None?
    ensures OpenUrl(url, file, w) == OpenWithDefault(url, w)
  {
  }

  /**
    The whole of open_url, by case: which handler wins decides the outcome,
    whatever the handlers after it are.
   */
  lemma OpenUrlCases(w: World, url: string, file: ConfigFile)
    requires FromFile(w.dirs, file).Ok?
    ensures var hs := FromFile(w.dirs, file).value.handlers;
      && (NoneMatch(w, url, hs) ==> OpenUrl(url, file, w) == OpenWithDefault(url, w))
      && (forall i :: FirstMatchAt(w, url, hs, i) ==> OpenUrl(url, file, w) == HandleMatch(url, hs[i], w))
      && (forall i :: FirstInvalidAt(w, url, hs, i) ==>
            OpenUrl(url, file, w) == Outcome(Err(PatternError(hs[i].pattern)), []))
  {
    var hs := FromFile(w.dirs, file).value.handlers;
    if NoneMatch(w, url, hs) {
      ScanNoMatch(w, url, hs);
    }
    forall i | FirstMatchAt(w, url, hs, i)
      ensures OpenUrl(url, file, w) == HandleMatch(url, hs[i], w)
    {
      ScanFirstMatch(w, url, hs, i);
    }
    forall i | FirstInvalidAt(w, url, hs, i)
      ensures OpenUrl(url, file, w) == Outcome(Err(PatternError(hs[i].pattern)), [])
    {
      ScanFirstInvalid(w, url, hs, i);
    }
  }

  const GithubPattern: string := "^https://github\\.com"

  /**
    A world with config.toml, scripts/github and scripts/_default installed
    under /cfg/, a regular-expression engine that knows `GithubPattern`, and
    a github script that exits with `githubExit` while every other exits
    successfully.
   */
  function GithubWorld(githubExit: bool): World
  {
    World(
      Some(BaseDirs(name => if name == "config.toml" || name == "scripts/github" || name == "scripts/_default"
                            then Some("/cfg/" + name) else None)),
      p => if p == GithubPattern then Compiled(u => |u| >= 18 && u[..18] == "https://github.com") else Invalid,
      (program, args) => Exited(program != "/cfg/scripts/github" || githubExit))
  }

  const GithubConfig: ConfigFile := Parsed(Config([Handler(GithubPattern, "github")]))

  /**
    The github script exits unsuccessfully for a GitHub URL: `_default` then
    receives the URL and "", not the pattern that matched, and its success is
    the overall result.
   */
  lemma GithubFallbackScenario()
    ensures OpenUrl("https://github.com/x", GithubConfig, GithubWorld(false))
      == Outcome(Ok(()), [Invocation("github", "/cfg/scripts/github", ["https://github.com/x", GithubPattern]),
                          Invocation("_default", "/cfg/scripts/_default", ["https://github.com/x", ""])])
  {
    var url, w := "https://github.com/x", GithubWorld(false);
    var h := Handler(GithubPattern, "github");
    assert ScriptsDir + "github" == "scripts/github";
    assert "/cfg/" + "scripts/github" == "/cfg/scripts/github";
    assert "/cfg/" + "scripts/_default" == "/cfg/scripts/_default";
    assert ScriptsDir + DefaultScript == "scripts/_default";
    assert FromFile(w.dirs, GithubConfig) == Ok(Config([h]));
    assert url[..18] == "https://github.com";
    assert Selects(w, url, h);
    assert FirstMatchAt(w, url, [h], 0);
    MatchedScriptFailsFallsBack(w, url, [h], 0, "/cfg/scripts/github");
    DefaultOutcome(w, url, "/cfg/scripts/_default");
  }

  /** A URL no pattern matches goes straight to `_default` with the arguments (url, ""). */
  lemma GithubNoMatchScenario()
    ensures OpenUrl("https://example.com", GithubConfig, GithubWorld(true))
      == Outcome(Ok(()), [Invocation("_default", "/cfg/scripts/_default", ["https://example.com", ""])])
  {
    var url, w := "https://example.com", GithubWorld(true);
    var h := Handler(GithubPattern, "github");
    assert ScriptsDir + DefaultScript == "scripts/_default";
    assert "/cfg/" + "scripts/_default" == "/cfg/scripts/_default";
    assert FromFile(w.dirs, GithubConfig) == Ok(Config([h]));
    assert url[..18] != "https://github.com" by { assert url[8] != "https://github.com"[8]; }
    assert NoneMatch(w, url, [h]);
    ScanNoMatch(w, url, [h]);
    DefaultOutcome(w, url, "/cfg/scripts/_default");
  }
}
