/**
  `_load_env_file` (the same in do_uploader.py and uploader.py): read `.env`
  line by line and copy `KEY=value` assignments into the process environment,
  never overriding a variable that already has a non-empty value.
*/
module EnvFile {
  import opened Wrappers
  import opened PyStrings

  /** The process environment, `os.environ`. */
  type Environ = map<string, string>

  /** `os.getenv(name)` is truthy: the variable is set and not empty. */
  predicate IsSet(env: Environ, name: string) {
    name in env && env[name] != ""
  }

  /** What one line of `.env` asks for. */
  datatype LineEffect = Ignored | Assignment(key: string, value: string)

  /** A line, once stripped, is an assignment when it is not blank, is not a
      `#` comment and contains '='; the key is the text before the first '='
      and the value everything after it. */
  function ParseLine(line: string): (e: LineEffect)
    ensures var t := Strip(line);
      e.Assignment? <==> (t != [] && t[0] != '#' && '=' in t)
    ensures e.Assignment? ==> '=' !in e.key && Strip(line) == e.key + "=" + e.value
  {
    var t := Strip(line);
    if t != [] && t[0] != '#' && '=' in t then
      var (key, value) := SplitFirst(t, '=');
      Assignment(key, value)
    else
      Ignored
  }

  /** The environment after one effect: an assignment with a non-empty value is
      applied only when the variable is unset or empty. */
  function ApplyEffect(env: Environ, e: LineEffect): (r: Environ)
    // nothing is removed; a set variable keeps its value; at most the assigned
    // variable changes, and only to the assigned non-empty value
    ensures env.Keys <= r.Keys
    ensures forall k :: IsSet(env, k) ==> k in r && r[k] == env[k]
    ensures forall k :: k in r && (k !in env || r[k] != env[k]) ==>
      e.Assignment? && k == e.key && r[k] == e.value && e.value != ""
    ensures e.Assignment? && e.value != "" && !IsSet(env, e.key) ==> e.key in r && r[e.key] == e.value
  {
    if e.Assignment? && e.value != "" && !IsSet(env, e.key) then env[e.key := e.value] else env
  }

  /** The environment after one line of `.env`. */
  function ApplyLine(env: Environ, line: string): Environ {
    ApplyEffect(env, ParseLine(line))
  }

  /** What each line of `.env` asks for, in file order. */
  function Effects(lines: seq<string>): seq<LineEffect> {
    seq(|lines|, i requires 0 <= i < |lines| => ParseLine(lines[i]))
  }

  /** The environment after a run of effects, applied in order. */
  function ApplyEffects(env: Environ, es: seq<LineEffect>): Environ
    decreases |es|
  {
    if es == [] then env
    else ApplyEffect(ApplyEffects(env, es[..|es| - 1]), es[|es| - 1])
  }

  /** The environment after the lines of `.env`, applied in order. */
  function LoadLines(env: Environ, lines: seq<string>): Environ {
    ApplyEffects(env, Effects(lines))
  }

  /** The environment after `_load_env_file`: unchanged when there is no `.env`. */
  function LoadDotEnv(env: Environ, dotenv: Option<seq<string>>): (r: Environ)
    ensures dotenv.None? ==> r == env
    ensures env.Keys <= r.Keys
  {
    if dotenv.Some? then
      OnlyAdds(env, Effects(dotenv.value));
      LoadLines(env, dotenv.value)
    else env
  }

  /** Effect `i` assigns a non-empty value to `name`. */
  predicate AssignsAt(es: seq<LineEffect>, i: int, name: string)
    requires 0 <= i < |es|
  {
    es[i].Assignment? && es[i].key == name && es[i].value != ""
  }

  /** Loading one more line applies it to the environment loaded so far. */
  lemma LoadLinesStep(env: Environ, lines: seq<string>, n: nat)
    requires n < |lines|
    ensures LoadLines(env, lines[..n + 1]) == ApplyLine(LoadLines(env, lines[..n]), lines[n])
  {
    assert Effects(lines[..n + 1])[..n] == Effects(lines[..n]);
  }

  /** Variables that already have a non-empty value are never overwritten. */
  lemma {:induction false} KeepsSetVariables(env: Environ, es: seq<LineEffect>, name: string)
    requires IsSet(env, name)
    ensures name in ApplyEffects(env, es) && ApplyEffects(env, es)[name] == env[name]
    decreases |es|
  {
    if es != [] {
      KeepsSetVariables(env, es[..|es| - 1], name);
    }
  }

  /** Loading never removes a variable. */
  lemma {:induction false} OnlyAdds(env: Environ, es: seq<LineEffect>)
    ensures env.Keys <= ApplyEffects(env, es).Keys
    decreases |es|
  {
    if es != [] {
      OnlyAdds(env, es[..|es| - 1]);
    }
  }

  /** Every value in the loaded environment was there before or was assigned,
      non-empty, by one of the lines. */
  lemma {:induction false} ValuesComeFromLines(env: Environ, es: seq<LineEffect>, name: string)
    requires name in ApplyEffects(env, es)
    ensures var v := ApplyEffects(env, es)[name];
      || (name in env && v == env[name])
      || exists i :: 0 <= i < |es| && AssignsAt(es, i, name) && es[i].value == v
    decreases |es|
  {
    if es != [] {
      var init := es[..|es| - 1];
      var before := ApplyEffects(env, init);
      if name in before && ApplyEffects(env, es)[name] == before[name] {
        ValuesComeFromLines(env, init, name);
        var v := before[name];
        if !(name in env && v == env[name]) {
          var i :| 0 <= i < |init| && AssignsAt(init, i, name) && init[i].value == v;
          assert AssignsAt(es, i, name);
        }
      } else {
        assert AssignsAt(es, |es| - 1, name);
      }
    }
  }

  /** A variable that is unset or empty before loading takes the value of the
      first line that assigns it a non-empty value: later lines do not override it. */
  lemma {:induction false} FirstAssignmentWins(env: Environ, es: seq<LineEffect>, i: nat, name: string)
    requires !IsSet(env, name)
    requires i < |es| && AssignsAt(es, i, name)
    requires forall j :: 0 <= j < i ==> !AssignsAt(es, j, name)
    ensures name in ApplyEffects(env, es)
    ensures ApplyEffects(env, es)[name] == es[i].value
    decreases |es|
  {
    var init := es[..|es| - 1];
    forall j | 0 <= j < i && j < |init| ensures !AssignsAt(init, j, name) {
      assert init[j] == es[j] && !AssignsAt(es, j, name);
    }
    if i == |es| - 1 {
      LeavesUnassigned(env, init, name);
    } else {
      assert init[i] == es[i];
      FirstAssignmentWins(env, init, i, name);
    }
  }

  /** With no line assigning it, a variable that was unset or empty stays as it was. */
  lemma {:induction false} LeavesUnassigned(env: Environ, es: seq<LineEffect>, name: string)
    requires !IsSet(env, name)
    requires forall j :: 0 <= j < |es| ==> !AssignsAt(es, j, name)
    ensures name in ApplyEffects(env, es) <==> name in env
    ensures name in env ==> ApplyEffects(env, es)[name] == env[name]
    decreases |es|
  {
    if es != [] {
      var init := es[..|es| - 1];
      forall j | 0 <= j < |init| ensures !AssignsAt(init, j, name) {
        assert init[j] == es[j] && !AssignsAt(es, j, name);
      }
      LeavesUnassigned(env, init, name);
      assert !AssignsAt(es, |es| - 1, name);
    }
  }

  /** `os.environ`, which `_load_env_file` updates in place. */
  class Environment {
    var vars: Environ

    constructor (initial: Environ)
      ensures vars == initial
    {
      vars := initial;
    }

    /** `_load_env_file`: `dotenv` holds the lines of `.env`, or None when the file
        does not exist. */
    method LoadEnvFile(dotenv: Option<seq<string>>)
      modifies this
      ensures vars == LoadDotEnv(old(vars), dotenv)
    {
      if dotenv.Some? {
        var lines := dotenv.value;
        for n := 0 to |lines|
          invariant vars == LoadLines(old(vars), lines[..n])
        {
          LoadLinesStep(old(vars), lines, n);
          var line := Strip(lines[n]);
          if line != [] && line[0] != '#' && '=' in line {
            var (key, value) := SplitFirst(line, '=');
            if value != "" && !(key in vars && vars[key] != "") {
              vars := vars[key := value];
            }
          }
        }
        assert lines[..|lines|] == lines;
      }
    }
  }
}
