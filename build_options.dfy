/**
 * The build-options record handed to the toolchain's prepare and compile
 * steps, and how the driver derives it from the environment.
 */
module BuildOptions {
  import opened Text
  import opened EnvKeys

  /** A value stored under a key of the nested `options` object. */
  datatype Value = Bool(b: bool) | Str(s: string)

  /**
   * `{ platforms, options, verbose, silent, fetch }`; `options` is a plain
   * object whose keys the driver adds one by one.
   */
  datatype Options = Options(
    platforms: seq<string>,
    options: map<string, Value>,
    verbose: bool,
    silent: bool,
    fetch: bool)

  const VerboseVar := "SEY_VERBOSE"
  const PlatformsVar := "SEY_BUILD_PLATFORMS"
  const ModeVar := "SEY_BUILD_MODE"
  const ConfigVar := "SEY_BUILD_CONFIG"

  /** The keys the driver may put into `options`. */
  const OptionKeys: set<string> := {"device", "debug", "release", "verbose", "buildConfig"}

  /**
   * `SEY_BUILD_MODE` is set and lower-cases to `release`: only a seven-letter
   * value can select release, and `release` itself always does.
   */
  function IsRelease(env: Env): (b: bool)
    ensures b ==> ModeVar in env.vars && |env.vars[ModeVar]| == |"release"|
    ensures ModeVar in env.vars && env.vars[ModeVar] == "release" ==> b
  {
    Truthy(env, ModeVar) && LowerStr(env.vars[ModeVar]) == "release"
  }

  /**
   * `value.split(',').map(p => p.toLowerCase())`: one entry per
   * comma-separated segment, in order, neither trimmed nor de-duplicated;
   * the same list as splitting the lower-cased value, so joining it back
   * gives the lower-cased value.
   */
  function PlatformList(value: string): (ps: seq<string>)
    ensures |ps| == |Split(value, ',')|
    ensures ps == Split(LowerStr(value), ',')
    ensures Join(ps, ',') == LowerStr(value)
  {
    var parts := Split(value, ',');
    var ps := seq(|parts|, i requires 0 <= i < |parts| => LowerStr(parts[i]));
    SplitLowerStr(value, ',');
    JoinSplit(LowerStr(value), ',');
    ps
  }

  /** The options the driver builds for `env`, described field by field. */
  function OptionsFor(env: Env): (o: Options)
    ensures o.platforms == (if Truthy(env, PlatformsVar) then PlatformList(env.vars[PlatformsVar]) else [])
    ensures o.options.Keys <= OptionKeys
    ensures "device" in o.options && o.options["device"] == Bool(true)
    ensures ("release" in o.options) == IsRelease(env)
    ensures ("debug" in o.options) == !IsRelease(env)
    ensures "release" in o.options ==> o.options["release"] == Bool(true)
    ensures "debug" in o.options ==> o.options["debug"] == Bool(true)
    ensures o.verbose == Truthy(env, VerboseVar)
    ensures ("verbose" in o.options) == Truthy(env, VerboseVar)
    ensures "verbose" in o.options ==> o.options["verbose"] == Bool(true)
    ensures ("buildConfig" in o.options) == Truthy(env, ConfigVar)
    ensures "buildConfig" in o.options ==> o.options["buildConfig"] == Str(env.vars[ConfigVar])
    ensures !o.silent && o.fetch
  {
    var base := map["device" := Bool(true)];
    var verbose := if Truthy(env, VerboseVar) then base["verbose" := Bool(true)] else base;
    var mode := if IsRelease(env) then verbose["release" := Bool(true)] else verbose["debug" := Bool(true)];
    var config := if Truthy(env, ConfigVar) then mode["buildConfig" := Str(env.vars[ConfigVar])] else mode;
    Options(
      if Truthy(env, PlatformsVar) then PlatformList(env.vars[PlatformsVar]) else [],
      config,
      Truthy(env, VerboseVar),
      false,
      true)
  }

  /**
   * Builds the record the way the driver does: start from the defaults and
   * assign fields as each variable is examined.
   */
  method DeriveOptions(env: Env) returns (opts: Options)
    ensures opts == OptionsFor(env)
  {
    opts := Options([], map["device" := Bool(true)], false, false, true);
    if Truthy(env, VerboseVar) {
      opts := opts.(verbose := true);
      opts := opts.(options := opts.options["verbose" := Bool(true)]);
    }
    if Truthy(env, PlatformsVar) {
      opts := opts.(platforms := PlatformList(env.vars[PlatformsVar]));
    }
    if Truthy(env, ModeVar) && LowerStr(env.vars[ModeVar]) == "release" {
      opts := opts.(options := opts.options["release" := Bool(true)]);
    } else {
      opts := opts.(options := opts.options["debug" := Bool(true)]);
    }
    if Truthy(env, ConfigVar) {
      opts := opts.(options := opts.options["buildConfig" := Str(env.vars[ConfigVar])]);
    }
  }

  /** The platform list from the test suite: `Windows,iOS`. */
  lemma PlatformListExample()
    ensures PlatformList("Windows,iOS") == ["windows", "ios"]
  {
    var parts := ["windows", "ios"];
    assert Join(parts[1..], ',') == "ios";
    assert Join(parts, ',') == "windows,ios";
    assert LowerStr("Windows,iOS") == "windows,ios";
    SplitJoin(parts, ',');
  }

  /** Any letter casing of `release` selects release mode; other values select debug. */
  lemma BuildModeExamples(env: Env)
    ensures ModeVar in env.vars && env.vars[ModeVar] in {"release", "Release", "RELEASE"} ==> IsRelease(env)
    ensures ModeVar in env.vars && env.vars[ModeVar] in {"debug", "", "releases"} ==> !IsRelease(env)
    ensures ModeVar !in env.vars ==> !IsRelease(env)
  {
    assert LowerStr("Release") == "release";
    assert LowerStr("RELEASE") == "release";
    assert LowerStr("release") == "release";
    assert |LowerStr("releases")| == 8;
    assert LowerStr("debug") == "debug";
  }
}
