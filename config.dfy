/**
 * The web UI's configuration: a YAML file, a properties file and four
 * environment variables, merged in that order of increasing precedence, and
 * cached by the configuration manager until it is told to reload.
 */
module Config {
  import opened Common

  /** A configuration value as YAML, the properties file and the environment produce them. */
  datatype Value =
    | Null
    | Bool(b: bool)
    | Int(i: int)
    | Str(s: string)
    | List(items: seq<Value>)
    | Dict(entries: map<string, Value>)

  /** `config[path[0]][path[1]]...`, or None when a key is missing or a step is not a dict. */
  function GetPath(m: map<string, Value>, path: seq<string>): Option<Value>
    decreases |path|
  {
    if |path| == 0 || path[0] !in m then None
    else if |path| == 1 then Some(m[path[0]])
    else if m[path[0]].Dict? then GetPath(m[path[0]].entries, path[1..])
    else None
  }

  // ---------------------------------------------------------------------------
  // _deep_merge
  // ---------------------------------------------------------------------------

  /**
   * The merge of `over` into `base`: every key of either side; where both
   * sides hold a dict the two merge recursively, otherwise the value from
   * `over` wins; keys only in `base` keep their value.
   */
  function Merged(base: map<string, Value>, over: map<string, Value>): (r: map<string, Value>)
    ensures r.Keys == base.Keys + over.Keys
    decreases Dict(over)
  {
    map k | k in base.Keys + over.Keys ::
      if k in over then
        if k in base && base[k].Dict? && over[k].Dict? then
          assert over[k] in over.Values;
          Dict(Merged(base[k].entries, over[k].entries))
        else over[k]
      else base[k]
  }

  /** `_deep_merge(base, override)`: copy `base`, then write each key of `override` into the copy. */
  method DeepMerge(base: map<string, Value>, over: map<string, Value>) returns (result: map<string, Value>)
    ensures result == Merged(base, over)
    decreases Dict(over), 1
  {
    result := base;
    var pending := over.Keys;
    while pending != {}
      invariant pending <= over.Keys
      invariant result.Keys == base.Keys + (over.Keys - pending)
      invariant forall k :: k in result && k !in pending ==> result[k] == Merged(base, over)[k]
      invariant forall k :: k in pending && k in base ==> result[k] == base[k]
      decreases pending
    {
      var k :| k in pending;
      // Each key of `over` is written once, so here `result` still agrees with `base` at `k`.
      var v := MergeKey(base, over, k);
      result := result[k := v];
      pending := pending - {k};
    }
  }

  /** The value the merge writes under one key of `over`. */
  method MergeKey(base: map<string, Value>, over: map<string, Value>, k: string) returns (v: Value)
    requires k in over
    ensures v == Merged(base, over)[k]
    decreases Dict(over), 0
  {
    if k in base && base[k].Dict? && over[k].Dict? {
      assert over[k] in over.Values;
      var sub := DeepMerge(base[k].entries, over[k].entries);
      v := Dict(sub);
    } else {
      v := over[k];
    }
  }

  /** A value from `over` that is not a dict is what the merge holds at its path. */
  lemma {:induction false} MergedOverrideWins(base: map<string, Value>, over: map<string, Value>, path: seq<string>, v: Value)
    requires GetPath(over, path) == Some(v) && !v.Dict?
    ensures GetPath(Merged(base, over), path) == Some(v)
    decreases |path|
  {
    var k := path[0];
    if |path| > 1 && k in base && base[k].Dict? {
      MergedOverrideWins(base[k].entries, over[k].entries, path[1..], v);
    }
  }

  /** Under a key `over` does not have, the merge is `base`. */
  lemma MergedKeepsBase(base: map<string, Value>, over: map<string, Value>, path: seq<string>)
    requires path != [] && path[0] !in over
    ensures GetPath(Merged(base, over), path) == GetPath(base, path)
  {
  }

  /** Merging a configuration into itself changes nothing. */
  lemma {:induction false} MergedIdempotent(m: map<string, Value>)
    ensures Merged(m, m) == m
    decreases Dict(m)
  {
    forall k | k in m && m[k].Dict?
      ensures Merged(m[k].entries, m[k].entries) == m[k].entries
    {
      assert m[k] in m.Values;
      MergedIdempotent(m[k].entries);
    }
  }

  /** Merging nothing in, or into nothing, gives the other side. */
  lemma MergedEmpty(m: map<string, Value>)
    ensures Merged(m, map[]) == m && Merged(map[], m) == m
  {
  }

  // ---------------------------------------------------------------------------
  // Nested assignment through setdefault
  // ---------------------------------------------------------------------------

  /**
   * `current = config; for k in keys[:-1]: current = current.setdefault(k, {})`
   * then `current[keys[-1]] = v`. None is the exception Python raises when a
   * step meets a value that is not a dict.
   */
  function SetPath(m: map<string, Value>, keys: seq<string>, v: Value): Option<map<string, Value>>
    requires |keys| > 0
    decreases |keys|
  {
    if |keys| == 1 then Some(m[keys[0] := v])
    else
      var k := keys[0];
      var inner := if k in m then m[k] else Dict(map[]);
      if !inner.Dict? then None
      else match SetPath(inner.entries, keys[1..], v)
        case None => None
        case Some(sub) => Some(m[k := Dict(sub)])
  }

  /** After a successful assignment the value is found at its path. */
  lemma {:induction false} SetPathGet(m: map<string, Value>, keys: seq<string>, v: Value)
    requires |keys| > 0 && SetPath(m, keys, v).Some?
    ensures GetPath(SetPath(m, keys, v).value, keys) == Some(v)
    decreases |keys|
  {
    if |keys| > 1 {
      var inner := if keys[0] in m then m[keys[0]] else Dict(map[]);
      SetPathGet(inner.entries, keys[1..], v);
    }
  }

  /** An assignment leaves every other top-level key as it was. */
  lemma SetPathOthers(m: map<string, Value>, keys: seq<string>, v: Value)
    requires |keys| > 0 && SetPath(m, keys, v).Some?
    ensures SetPath(m, keys, v).value.Keys == m.Keys + {keys[0]}
    ensures forall k :: k in m && k != keys[0] ==> SetPath(m, keys, v).value[k] == m[k]
  {
  }

  /** An assignment fails exactly when some step of its path holds a value that is not a dict. */
  lemma {:induction false} SetPathFails(m: map<string, Value>, keys: seq<string>, v: Value, j: nat)
    requires 0 < j < |keys|
    requires GetPath(m, keys[..j]).Some? && !GetPath(m, keys[..j]).value.Dict?
    ensures SetPath(m, keys, v).None?
    decreases j
  {
    if j > 1 {
      assert keys[1..][..j - 1] == keys[..j][1..];
      SetPathFails(m[keys[0]].entries, keys[1..], v, j - 1);
    }
  }

  // ---------------------------------------------------------------------------
  // load_properties_config
  // ---------------------------------------------------------------------------

  /** One `key=value` line: the dotted key split into its path, and the value. */
  datatype Entry = Entry(path: seq<string>, value: string)

  /**
   * One line of a properties file: blank lines, `#` comments and lines
   * without `=` are skipped; otherwise the stripped line is split at its
   * first `=` and both sides are stripped.
   */
  function ParseLine(line: string): (r: Option<Entry>)
    ensures r.None? <==> Strip(line) == [] || Strip(line)[0] == '#' || '=' !in Strip(line)
    ensures r.Some? ==> |r.value.path| > 0
  {
    var t := Strip(line);
    if t == [] || t[0] == '#' || '=' !in t then None
    else
      var i := IndexOf(t, '=');
      Some(Entry(SplitOn(Strip(t[..i]), '.'), Strip(t[i + 1..])))
  }

  /** The split happens at the first `=`: a value may hold more of them. */
  lemma ParseLineFirstEquals(line: string, key: string, value: string)
    requires Strip(line) == key + "=" + value && '=' !in key && (key == [] || key[0] != '#')
    ensures ParseLine(line) == Some(Entry(SplitOn(Strip(key), '.'), Strip(value)))
  {
    var t := Strip(line);
    SplitAtFirstEquals(t, key, value);
    var i := IndexOf(t, '=');
    assert Strip(t[..i]) == Strip(key) && Strip(t[i + 1..]) == Strip(value);
  }

  /** Cutting `key=value` at its first `=`, when the key holds none. */
  lemma SplitAtFirstEquals(t: string, key: string, value: string)
    requires t == key + "=" + value && '=' !in key && (key == [] || key[0] != '#')
    ensures t != [] && t[0] != '#' && '=' in t
    ensures IndexOf(t, '=') == |key| && t[..|key|] == key && t[|key| + 1..] == value
  {
    var i := |key|;
    assert t[i] == '=' && t[..i] == key && t[i + 1..] == value;
    IndexOfAt(t, '=', i);
    if key == [] { assert t[0] == '='; } else { assert t[0] == key[0]; }
  }

  /** The configuration after one more line, or None once a line raised. */
  function ApplyLine(m: map<string, Value>, line: string): Option<map<string, Value>> {
    match ParseLine(line)
    case None => Some(m)
    case Some(e) => SetPath(m, e.path, Str(e.value))
  }

  /** The properties read from `lines` in order; None when some line raised. */
  function PropertiesOf(lines: seq<string>): Option<map<string, Value>>
    decreases |lines|
  {
    if lines == [] then Some(map[])
    else match PropertiesOf(lines[..|lines| - 1])
      case None => None
      case Some(m) => ApplyLine(m, lines[|lines| - 1])
  }

  /** `load_properties_config()`: a missing file, and any exception while reading it, give `{}`. */
  function PropertiesConfig(file: Option<seq<string>>): map<string, Value> {
    match file
    case None => map[]
    case Some(lines) => PropertiesOf(lines).GetOr(map[])
  }

  /** Reading one more line applies it to what the lines before it gave. */
  lemma PropertiesStep(lines: seq<string>, i: nat)
    requires i < |lines|
    ensures PropertiesOf(lines[..i + 1])
            == match PropertiesOf(lines[..i]) case None => None case Some(m) => ApplyLine(m, lines[i])
  {
    assert lines[..i + 1][..i] == lines[..i];
  }

  /** The loop of `load_properties_config`, over the lines of a file that exists. */
  method LoadProperties(file: Option<seq<string>>) returns (config: map<string, Value>)
    ensures config == PropertiesConfig(file)
  {
    if file.None? {
      return map[];
    }
    var lines := file.value;
    config := map[];
    var i := 0;
    while i < |lines|
      invariant 0 <= i <= |lines|
      invariant PropertiesOf(lines[..i]) == Some(config)
    {
      PropertiesStep(lines, i);
      var entry := ParseLine(lines[i]);
      if entry.Some? {
        var next := SetPath(config, entry.value.path, Str(entry.value.value));
        if next.None? {
          PropertiesFailureSticks(lines, i + 1);
          return map[];
        }
        config := next.value;
      }
      i := i + 1;
    }
    assert lines[..|lines|] == lines;
  }

  /** Once a line has raised, the whole file reads as a failure. */
  lemma {:induction false} PropertiesFailureSticks(lines: seq<string>, n: nat)
    requires n <= |lines| && PropertiesOf(lines[..n]).None?
    ensures PropertiesOf(lines).None?
    decreases |lines|
  {
    if n == |lines| {
      assert lines[..n] == lines;
    } else {
      var init := lines[..|lines| - 1];
      assert init[..n] == lines[..n];
      PropertiesFailureSticks(init, n);
    }
  }

  /** The last line that sets a key decides its value. */
  lemma PropertiesLastLineWins(lines: seq<string>, line: string)
    requires ParseLine(line).Some? && PropertiesOf(lines + [line]).Some?
    ensures GetPath(PropertiesOf(lines + [line]).value, ParseLine(line).value.path) == Some(Str(ParseLine(line).value.value))
  {
    assert (lines + [line])[..|lines|] == lines;
    var e := ParseLine(line).value;
    SetPathGet(PropertiesOf(lines).value, e.path, Str(e.value));
  }

  /** Skipped lines leave the configuration as it was. */
  lemma PropertiesSkippedLine(lines: seq<string>, line: string)
    requires ParseLine(line).None?
    ensures PropertiesOf(lines + [line]) == PropertiesOf(lines)
  {
    assert (lines + [line])[..|lines|] == lines;
  }

  /** A line without whitespace parses to its dotted key's parts and its value. */
  lemma ParseSimpleLine(line: string, key: string, value: string)
    requires line == key + "=" + value && NoSpace(line) && '=' !in key && key != [] && key[0] != '#'
    ensures ParseLine(line) == Some(Entry(SplitOn(key, '.'), value))
  {
    StripNoSpace(line);
    assert NoSpace(key) by {
      forall i | 0 <= i < |key| ensures !IsSpace(key[i]) { assert key[i] == line[i]; }
    }
    assert NoSpace(value) by {
      forall i | 0 <= i < |value| ensures !IsSpace(value[i]) { assert value[i] == line[|key| + 1 + i]; }
    }
    StripNoSpace(key);
    StripNoSpace(value);
    ParseLineFirstEquals(line, key, value);
  }

  /** `(x + sep + y).split(sep)` is `[x, y]` when neither part holds the separator. */
  lemma SplitOnTwo(x: string, y: string, sep: char)
    requires sep !in x && sep !in y
    ensures SplitOn(x + [sep] + y, sep) == [x, y]
  {
    var s := x + [sep] + y;
    assert s[|x|] == sep && s[..|x|] == x;
    assert IndexOf(s, sep) == |x|;
    assert s[|x| + 1..] == y;
  }

  lemma ParsePlainLine()
    ensures ParseLine("a=1") == Some(Entry(SplitOn("a", '.'), "1"))
  {
    ParseSimpleLine("a=1", "a", "1");
  }

  lemma ParseDottedLine()
    ensures ParseLine("a.b=2") == Some(Entry(SplitOn("a.b", '.'), "2"))
  {
    ParseSimpleLine("a.b=2", "a.b", "2");
  }

  lemma DottedKeyParts()
    ensures SplitOn("a", '.') == ["a"] && SplitOn("a.b", '.') == ["a", "b"]
  {
    assert "a.b" == "a" + ['.'] + "b";
    SplitOnTwo("a", "b", '.');
  }

  lemma PlainLineRead()
    ensures PropertiesOf(["a=1"]) == Some(map["a" := Str("1")])
  {
    ParsePlainLine();
    DottedKeyParts();
    assert ["a=1"][..0] == [];
  }

  lemma SectionOverPlainFails()
    ensures SetPath(map["a" := Str("1")], ["a", "b"], Str("2")) == None
  {
  }

  /** A plain key whose name is later reused as a section makes the whole file read as `{}`. */
  lemma PropertiesConflict()
    ensures PropertiesConfig(Some(["a=1", "a.b=2"])) == map[]
  {
    var lines := ["a=1", "a.b=2"];
    assert lines[..1] == ["a=1"];
    PlainLineRead();
    ParseDottedLine();
    DottedKeyParts();
    SectionOverPlainFails();
    assert ApplyLine(map["a" := Str("1")], "a.b=2") == None;
  }

  // ---------------------------------------------------------------------------
  // _load_env_overrides
  // ---------------------------------------------------------------------------

  /** An environment variable and the two-level path it overrides. */
  datatype EnvMapping = EnvMapping(variable: string, section: string, leaf: string)

  const EnvMappings: seq<EnvMapping> := [
    EnvMapping("WEBUI_HOST", "server", "host"),
    EnvMapping("WEBUI_PORT", "server", "port"),
    EnvMapping("GREYTHR_PROJECT_PATH", "greythr", "project_path"),
    EnvMapping("WEBUI_LOG_LEVEL", "logging", "level")
  ]

  /**
   * The typed value of an environment override: a `port` becomes an int
   * when `int()` reads it and stays text otherwise; any other key becomes a
   * boolean when it is "true" or "false" in any letter case.
   */
  function Coerce(leaf: string, value: string): (r: Value)
    ensures leaf == "port" && ParseInt(value).Some? ==> r == Int(ParseInt(value).value)
    ensures leaf == "port" && ParseInt(value).None? ==> r == Str(value)
    ensures leaf != "port" && Lower(value) == "true" ==> r == Bool(true)
    ensures leaf != "port" && Lower(value) == "false" ==> r == Bool(false)
    ensures leaf != "port" && Lower(value) != "true" && Lower(value) != "false" ==> r == Str(value)
  {
    if leaf == "port" then
      match ParseInt(value)
      case Some(n) => Int(n)
      case None => Str(value)
    else if Lower(value) == "true" || Lower(value) == "false" then Bool(Lower(value) == "true")
    else Str(value)
  }

  /** The overrides from the first `n` mappings. */
  function EnvOverridesUpTo(env: map<string, string>, n: nat): map<string, Value>
    requires n <= |EnvMappings|
  {
    if n == 0 then map[]
    else
      var m := EnvOverridesUpTo(env, n - 1);
      var mp := EnvMappings[n - 1];
      if mp.variable in env then
        // Never None: every section the overrides hold is a dict.
        SetPath(m, [mp.section, mp.leaf], Coerce(mp.leaf, env[mp.variable])).GetOr(m)
      else m
  }

  /** `_load_env_overrides()` over the environment `env`. */
  function EnvOverrides(env: map<string, string>): map<string, Value> {
    EnvOverridesUpTo(env, |EnvMappings|)
  }

  /** The loop of `_load_env_overrides`. */
  method LoadEnvOverrides(env: map<string, string>) returns (overrides: map<string, Value>)
    ensures overrides == EnvOverrides(env)
  {
    overrides := map[];
    var i := 0;
    while i < |EnvMappings|
      invariant 0 <= i <= |EnvMappings|
      invariant overrides == EnvOverridesUpTo(env, i)
    {
      var mp := EnvMappings[i];
      if mp.variable in env {
        var value := Coerce(mp.leaf, env[mp.variable]);
        var next := SetPath(overrides, [mp.section, mp.leaf], value);
        if next.Some? {
          overrides := next.value;
        }
      }
      i := i + 1;
    }
  }

  /** What the first `n` mappings put at the path `[a, b]`. */
  function Expected(env: map<string, string>, n: nat, a: string, b: string): Option<Value>
    requires n <= |EnvMappings|
  {
    if n == 0 then None
    else
      var mp := EnvMappings[n - 1];
      if mp.variable in env && mp.section == a && mp.leaf == b then Some(Coerce(b, env[mp.variable]))
      else Expected(env, n - 1, a, b)
  }

  /** Every section of the overrides is a dict with at least one entry. */
  ghost predicate Sectioned(m: map<string, Value>) {
    forall k :: k in m ==> m[k].Dict? && m[k].entries != map[]
  }

  /** The entries of section `a`, or none when `m` has no such section. */
  function Section(m: map<string, Value>, a: string): map<string, Value> {
    if a in m && m[a].Dict? then m[a].entries else map[]
  }

  lemma SetTwoShape(m: map<string, Value>, a: string, b: string, v: Value)
    requires Sectioned(m)
    ensures SetPath(m, [a, b], v) == Some(m[a := Dict(Section(m, a)[b := v])])
  {
    assert [a, b][1..] == [b];
    assert SetPath(Section(m, a), [b], v) == Some(Section(m, a)[b := v]);
  }

  lemma SetTwo(m: map<string, Value>, a: string, b: string, v: Value)
    requires Sectioned(m)
    ensures SetPath(m, [a, b], v).Some?
    ensures Sectioned(SetPath(m, [a, b], v).value)
    ensures forall x, y :: GetPath(SetPath(m, [a, b], v).value, [x, y])
                           == if x == a && y == b then Some(v) else GetPath(m, [x, y])
  {
    SetTwoShape(m, a, b, v);
    var m' := m[a := Dict(Section(m, a)[b := v])];
    forall x, y ensures GetPath(m', [x, y]) == if x == a && y == b then Some(v) else GetPath(m, [x, y]) {
      assert [x, y][1..] == [y];
    }
    forall k | k in m' ensures m'[k].Dict? && m'[k].entries != map[] {
      if k == a {
        assert b in m'[k].entries;
      }
    }
  }

  lemma {:induction false} EnvOverridesUpToPaths(env: map<string, string>, n: nat)
    requires n <= |EnvMappings|
    ensures Sectioned(EnvOverridesUpTo(env, n))
    ensures forall a, b :: GetPath(EnvOverridesUpTo(env, n), [a, b]) == Expected(env, n, a, b)
  {
    if n > 0 {
      EnvOverridesUpToPaths(env, n - 1);
      var mp := EnvMappings[n - 1];
      if mp.variable in env {
        SetTwo(EnvOverridesUpTo(env, n - 1), mp.section, mp.leaf, Coerce(mp.leaf, env[mp.variable]));
      }
    }
  }

  /** Later mappings that name another path do not change what the first `n` put at a path. */
  lemma {:induction false} ExpectedSkips(env: map<string, string>, n: nat, m: nat, a: string, b: string)
    requires m <= n <= |EnvMappings|
    requires forall j :: m <= j < n ==> EnvMappings[j].section != a || EnvMappings[j].leaf != b
    ensures Expected(env, n, a, b) == Expected(env, m, a, b)
    decreases n
  {
    if n > m {
      ExpectedSkips(env, n - 1, m, a, b);
    }
  }

  /**
   * Each mapped variable that is set appears, coerced, at its path, and an
   * unset variable adds nothing there.
   */
  lemma EnvOverridesPaths(env: map<string, string>, i: nat)
    requires i < |EnvMappings|
    ensures GetPath(EnvOverrides(env), [EnvMappings[i].section, EnvMappings[i].leaf])
            == if EnvMappings[i].variable in env
               then Some(Coerce(EnvMappings[i].leaf, env[EnvMappings[i].variable]))
               else None
  {
    EnvOverridesUpToPaths(env, |EnvMappings|);
    var mp := EnvMappings[i];
    ExpectedSkips(env, |EnvMappings|, i + 1, mp.section, mp.leaf);
    ExpectedSkips(env, i, 0, mp.section, mp.leaf);
  }

  /** No override exists outside the four mapped paths. */
  lemma EnvOverridesOnlyMapped(env: map<string, string>, a: string, b: string)
    requires forall i :: 0 <= i < |EnvMappings| ==> EnvMappings[i].section != a || EnvMappings[i].leaf != b
    ensures GetPath(EnvOverrides(env), [a, b]) == None
  {
    EnvOverridesUpToPaths(env, |EnvMappings|);
    ExpectedSkips(env, |EnvMappings|, 0, a, b);
  }

  // ---------------------------------------------------------------------------
  // ConfigManager
  // ---------------------------------------------------------------------------

  /**
   * What the configuration is read from: the YAML document's top-level
   * mapping (None when the file is missing, empty or unreadable), the
   * properties file's lines (None when missing or unreadable) and the
   * process environment.
   */
  datatype Sources = Sources(yaml: Option<map<string, Value>>, properties: Option<seq<string>>, env: map<string, string>)

  /** YAML first, then the properties file merged over it, then the environment over both. */
  function Combined(src: Sources): map<string, Value> {
    Merged(Merged(src.yaml.GetOr(map[]), PropertiesConfig(src.properties)), EnvOverrides(src.env))
  }

  /** Environment overrides beat the properties file, which beats YAML. */
  lemma CombinedPrecedence(src: Sources, path: seq<string>, v: Value)
    requires path != [] && !v.Dict?
    ensures GetPath(EnvOverrides(src.env), path) == Some(v) ==> GetPath(Combined(src), path) == Some(v)
    ensures path[0] !in EnvOverrides(src.env) && GetPath(PropertiesConfig(src.properties), path) == Some(v)
            ==> GetPath(Combined(src), path) == Some(v)
    ensures path[0] !in EnvOverrides(src.env) && path[0] !in PropertiesConfig(src.properties)
            ==> GetPath(Combined(src), path) == GetPath(src.yaml.GetOr(map[]), path)
  {
    var y, p, e := src.yaml.GetOr(map[]), PropertiesConfig(src.properties), EnvOverrides(src.env);
    if GetPath(e, path) == Some(v) {
      MergedOverrideWins(Merged(y, p), e, path, v);
    }
    if path[0] !in e {
      MergedKeepsBase(Merged(y, p), e, path);
      if GetPath(p, path) == Some(v) {
        MergedOverrideWins(y, p, path, v);
      }
      if path[0] !in p {
        MergedKeepsBase(y, p, path);
      }
    }
  }

  /** `ConfigManager`: the merged configuration, kept once computed. */
  class ConfigManager {
    var cache: Option<map<string, Value>>

    constructor()
      ensures cache == None
    {
      cache := None;
    }

    /** `load_config()`: the cached configuration if there is one, else read, merge and cache. */
    method LoadConfig(src: Sources) returns (config: map<string, Value>)
      modifies this
      ensures old(cache).Some? ==> config == old(cache).value && cache == old(cache)
      ensures old(cache).None? ==> config == Combined(src) && cache == Some(config)
    {
      if cache.Some? {
        return cache.value;
      }
      config := src.yaml.GetOr(map[]);
      var properties := LoadProperties(src.properties);
      config := DeepMerge(config, properties);
      var overrides := LoadEnvOverrides(src.env);
      config := DeepMerge(config, overrides);
      cache := Some(config);
    }

    /** `reload_config()`: drop the cache, then load afresh. */
    method ReloadConfig(src: Sources) returns (config: map<string, Value>)
      modifies this
      ensures config == Combined(src) && cache == Some(config)
    {
      cache := None;
      config := LoadConfig(src);
    }
  }
}
