/**
 * `Settings.load_from_env_file` (config/settings.py): the lines of a `.env`
 * file assigned into the process environment. The environment is an object
 * holding a map; whether the file exists and its lines (as iterating the
 * open file yields them) are inputs.
 */
module Settings {
  import opened Common

  /**
   * Why `os.environ[key] = value` raises `ValueError`: an empty name, or a
   * name or value holding a NUL character.
   */
  datatype EnvError = IllegalName(key: string) | EmbeddedNull(key: string)

  /** `s.split('=', 1)` of a string holding `'='`: the text before its first `'='` and all the text after it. */
  function SplitFirst(s: string): (r: (string, string))
    requires '=' in s
    ensures s == r.0 + "=" + r.1 && '=' !in r.0
  {
    var i := IndexOf(s, '=').value;
    assert s == s[..i] + "=" + s[i + 1..];
    (s[..i], s[i + 1..])
  }

  /** The assignment a line asks for, if any: blank lines, comments and lines without `'='` ask for none. */
  function Assignment(line: string): (r: Option<(string, string)>)
  {
    var s := Strip(line);
    if s != "" && !StartsWith(s, "#") && '=' in s then
      var (k, v) := SplitFirst(s);
      Some((Strip(k), Strip(v)))
    else None
  }

  /** What `os.environ[key] = value` refuses, if anything. */
  function Refusal(key: string, value: string): (r: Option<EnvError>)
    ensures r.None? <==> key != "" && '\0' !in key && '\0' !in value
  {
    if key == "" then Some(IllegalName(key))
    else if '\0' in key || '\0' in value then Some(EmbeddedNull(key))
    else None
  }

  /** The environment reached so far, and the error that stopped the loop, if one did. */
  datatype Loading = Loading(env: map<string, string>, error: Option<EnvError>)

  /** One line of the loop: once an error has been raised nothing more happens. */
  function Step(s: Loading, line: string): Loading
  {
    if s.error.Some? then s
    else match Assignment(line)
      case None => s
      case Some(kv) =>
        if Refusal(kv.0, kv.1).Some? then s.(error := Refusal(kv.0, kv.1))
        else s.(env := s.env[kv.0 := kv.1])
  }

  /** The state after the lines, in order: the assignments before a refused one have happened, none after it. */
  function Applied(env: map<string, string>, lines: seq<string>): Loading
    decreases |lines|
  {
    if lines == [] then Loading(env, None) else Step(Applied(env, lines[..|lines| - 1]), lines[|lines| - 1])
  }

  class Environment {
    var vars: map<string, string>

    constructor (initial: map<string, string>)
      ensures vars == initial
    {
      vars := initial;
    }

    /** `load_from_env_file`: nothing happens for a missing file; an assignment the environment refuses raises out of the loop. */
    method LoadFromEnvFile(file: Option<seq<string>>) returns (r: Result<(), EnvError>)
      modifies this
      ensures file.None? ==> r == Ok(()) && vars == old(vars)
      ensures file.Some? ==> vars == Applied(old(vars), file.value).env
      ensures file.Some? ==> (r.Err? <==> Applied(old(vars), file.value).error.Some?)
      ensures r.Err? ==> Applied(old(vars), file.value).error == Some(r.error)
    {
      if file.None? {
        return Ok(());
      }
      var lines := file.value;
      for i := 0 to |lines|
        invariant Applied(old(vars), lines[..i]) == Loading(vars, None)
      {
        assert lines[..i + 1][..i] == lines[..i];
        var line := Strip(lines[i]);
        if line != "" && !StartsWith(line, "#") && '=' in line {
          var (key, value) := SplitFirst(line);
          key, value := Strip(key), Strip(value);
          if key == "" {
            ErrorStops(old(vars), lines, i + 1);
            return Err(IllegalName(key));
          }
          if '\0' in key || '\0' in value {
            ErrorStops(old(vars), lines, i + 1);
            return Err(EmbeddedNull(key));
          }
          vars := vars[key := value];
        }
      }
      assert lines[..|lines|] == lines;
      r := Ok(());
    }
  }

  // ---------------------------------------------------------------------------
  // Properties
  // ---------------------------------------------------------------------------

  /** Once an assignment is refused, the later lines change nothing and the error stays. */
  lemma {:induction false} ErrorStops(env: map<string, string>, lines: seq<string>, n: int)
    requires 0 <= n <= |lines| && Applied(env, lines[..n]).error.Some?
    ensures Applied(env, lines) == Applied(env, lines[..n])
    decreases |lines|
  {
    if n < |lines| {
      assert lines[..|lines| - 1][..n] == lines[..n];
      ErrorStops(env, lines[..|lines| - 1], n);
    } else {
      assert lines[..n] == lines;
    }
  }

  /** The split is at the first `'='`: the value keeps every later `'='`, and the key has none. */
  lemma ValueKeepsEquals(line: string, k: string, v: string)
    requires Assignment(line) == Some((k, v))
    ensures '=' !in k
    ensures exists key, value :: Strip(line) == key + "=" + value && k == Strip(key) && v == Strip(value) && '=' !in key
  {
    var (key, value) := SplitFirst(Strip(line));
    StripKeepsOut(key, '=');
  }

  /** Strip takes away characters and adds none. */
  lemma StripKeepsOut(s: string, c: char)
    requires c !in s
    ensures c !in Strip(s)
  {
    StripLeftKeepsSuffix(s);
    StripRightKeepsPrefix(StripLeft(s));
  }

  /** Blank lines, comments and lines without `'='` leave the environment as it was. */
  lemma IgnoredLines(line: string)
    ensures Strip(line) == "" ==> Assignment(line).None?
    ensures StartsWith(Strip(line), "#") ==> Assignment(line).None?
    ensures '=' !in Strip(line) ==> Assignment(line).None?
  {
  }

  /** One line that is not refused sets the key it assigns, and no other. */
  lemma StepKeeps(s: Loading, line: string, k: string)
    requires Step(s, line).error.None?
    ensures Assignment(line).Some? && Assignment(line).value.0 == k ==>
              k in Step(s, line).env && Step(s, line).env[k] == Assignment(line).value.1
    ensures Assignment(line).None? || Assignment(line).value.0 != k ==>
              (k in Step(s, line).env <==> k in s.env) && (k in s.env ==> Step(s, line).env[k] == s.env[k])
  {
  }

  /** A key that no line assigns keeps what it had, or stays absent. */
  lemma {:induction false} UnassignedKeyKept(env: map<string, string>, lines: seq<string>, k: string)
    requires forall i :: 0 <= i < |lines| ==> Assignment(lines[i]).None? || Assignment(lines[i]).value.0 != k
    ensures (k in Applied(env, lines).env <==> k in env) && (k in env ==> Applied(env, lines).env[k] == env[k])
    decreases |lines|
  {
    if lines != [] {
      var n := |lines| - 1;
      var init := lines[..n];
      assert forall i :: 0 <= i < |init| ==> init[i] == lines[i];
      UnassignedKeyKept(env, init, k);
      if Step(Applied(env, init), lines[n]).error.None? {
        StepKeeps(Applied(env, init), lines[n], k);
      }
    }
  }

  /**
   * A later line for the same key wins: when the `i`-th line assigns `v` to
   * `k`, no later line assigns `k` and nothing is refused, `k` ends up
   * holding `v`.
   */
  lemma {:induction false} LastAssignmentWins(env: map<string, string>, lines: seq<string>, k: string, i: int, v: string)
    requires 0 <= i < |lines| && Assignment(lines[i]) == Some((k, v))
    requires forall j :: i < j < |lines| ==> Assignment(lines[j]).None? || Assignment(lines[j]).value.0 != k
    requires Applied(env, lines).error.None?
    ensures k in Applied(env, lines).env && Applied(env, lines).env[k] == v
    decreases |lines|
  {
    var n := |lines| - 1;
    var init := lines[..n];
    var before := Applied(env, init);
    assert Applied(env, lines) == Step(before, lines[n]);
    StepKeeps(before, lines[n], k);
    if i < n {
      assert before.error.None?;
      assert forall j :: i < j < |init| ==> init[j] == lines[j];
      LastAssignmentWins(env, init, k, i, v);
      assert Assignment(lines[n]).None? || Assignment(lines[n]).value.0 != k;
    } else {
      assert Assignment(lines[n]) == Some((k, v));
    }
  }
}
