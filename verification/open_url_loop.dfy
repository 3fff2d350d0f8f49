/**
  open_url written as the program writes it: a loop over the handlers that
  compiles each pattern when it is reached and returns from inside the loop
  on the first match or the first invalid pattern.
 */
module OpenUrlLoop {
  import opened Results
  import opened Configuration
  import opened Dispatch

  /** The loop computes the same result and starts the same processes as the recursive model. */
  method OpenUrlIterative(url: string, file: ConfigFile, w: World)
    returns (result: Result<()>, trace: seq<Invocation>)
    ensures Outcome(result, trace) == OpenUrl(url, file, w)
    ensures |trace| <= 2
    ensures forall k :: 0 <= k < |trace| ==> |trace[k].args| == 2 && trace[k].args[0] == url
  {
    var loaded := FromFile(w.dirs, file);
    if loaded.Err? {
      return Err(loaded.error), [];
    }
    var hs := loaded.value.handlers;
    var i := 0;
    while i < |hs|
      invariant 0 <= i <= |hs|
      invariant Scan(url, hs[i..], w) == Scan(url, hs, w)
    {
      var h := hs[i];
      assert hs[i..][0] == h && hs[i..][1..] == hs[i + 1..];
      match w.regex(h.pattern) {
        case Invalid =>
          return Err(PatternError(h.pattern)), [];
        case Compiled(isMatch) =>
          if isMatch(url) {
            var run := OpenWithScript(url, h, w);
            if run.result.Err? {
              return Err(run.result.error), run.trace;
            }
            if run.result.value {
              return Ok(()), run.trace;
            }
            var fallback := OpenWithDefault(url, w);
            return fallback.result, run.trace + fallback.trace;
          }
      }
      i := i + 1;
    }
    assert hs[i..] == [];
    var fallback := OpenWithDefault(url, w);
    result, trace := fallback.result, fallback.trace;
  }
}
