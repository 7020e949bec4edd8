/**
 * The driver `run(args, env)`: a strictly linear sequence of steps with an
 * early exit at each one. The toolchain's answers (project root, and whether
 * prepare, the two hooks and compile succeed) are inputs; everything the
 * driver asks of the outside world is recorded, in order, as a trace.
 */
module Seymour {
  import opened Wrappers
  import opened EnvKeys
  import opened BuildOptions
  import opened Descriptor
  import opened Mutations

  /** How a toolchain call settles: resolved, or rejected with a reason. */
  datatype StepResult = Succeeds | Fails(reason: string)

  /** What the outside world answers during one run. */
  datatype Toolchain = Toolchain(
    cwd: string,                  // process.cwd()
    projectRoot: Option<string>,  // cordova.findProjectRoot(cwd)
    configXml: Document,          // what config.xml holds when it is loaded
    prepare: StepResult,
    buildSetup: StepResult,       // cdProjectRoot() then preProcessOptions(...): either may throw
    beforeBuild: StepResult,
    compile: StepResult,
    afterBuild: StepResult)

  datatype Error =
    | NotAProject(message: string)  // a CordovaError raised by the driver itself
    | Propagated(reason: string)    // a toolchain rejection, passed on unchanged

  datatype Outcome = Resolved | Rejected(error: Error)

  /** A call the driver makes on the outside world. */
  datatype Event =
    | FindProjectRoot(cwd: string)
    | LoadConfig(projectRoot: string)
    | WriteConfig(contents: Document)
    | Prepare(opts: Options)
    | FireHook(hook: string, opts: Options)
    | Compile(opts: Options)

  const BeforeBuildHook := "before_build"
  const AfterBuildHook := "after_build"

  function NotAProjectMessage(cwd: string): string {
    "Current working directory is not a Cordova-based project: " + cwd
  }

  /** `args.indexOf('-v') !== -1 || args.indexOf('--version') !== -1`: either flag at any position. */
  function IsVersionRequest(args: seq<string>): (b: bool)
    ensures b <==> exists i :: 0 <= i < |args| && (args[i] == "-v" || args[i] == "--version")
  {
    "-v" in args || "--version" in args
  }

  /** `args.indexOf('--config-only') !== -1`: the flag at any position. */
  function IsConfigOnly(args: seq<string>): (b: bool)
    ensures b <==> exists i :: 0 <= i < |args| && args[i] == "--config-only"
  {
    "--config-only" in args
  }

  /** `if (!projectRoot)`: a missing root and an empty one both stop the run. */
  function HasProjectRoot(tc: Toolchain): (b: bool)
    ensures tc.projectRoot.None? ==> !b
    ensures tc.projectRoot == Some("") ==> !b
    ensures b <==> tc.projectRoot.Some? && |tc.projectRoot.value| > 0
  {
    tc.projectRoot.Some? && tc.projectRoot.value != ""
  }

  /**
   * The calls of a run that goes all the way: discover the root, load the
   * descriptor, write it, prepare, write it again, then the before-build
   * hook, compile and the after-build hook. Both writes persist `contents`;
   * prepare gets `opts`, the hooks and compile get `buildOpts`.
   */
  function Planned(cwd: string, projectRoot: string, contents: Document, opts: Options, buildOpts: Options): seq<Event> {
    [FindProjectRoot(cwd), LoadConfig(projectRoot), WriteConfig(contents)] + BuildPlan(contents, opts, buildOpts)
  }

  /**
   * The calls after the config-only check, for a descriptor holding
   * `contents`: prepare, write again, `before_build`, compile, `after_build`.
   */
  function BuildPlan(contents: Document, opts: Options, buildOpts: Options): seq<Event> {
    [Prepare(opts), WriteConfig(contents),
     FireHook(BeforeBuildHook, buildOpts), Compile(buildOpts), FireHook(AfterBuildHook, buildOpts)]
  }

  /** The run gets past the version check and finds a project root. */
  predicate Proceeds(args: seq<string>, tc: Toolchain) {
    !IsVersionRequest(args) && HasProjectRoot(tc)
  }

  /**
   * Lines 49-125 of `run`: the descriptor mutations and the options record,
   * in the source's order.
   */
  method Configure(config: Config, env: Env) returns (opts: Options)
    requires env.Valid()
    modifies config
    ensures config.Contents() == Configured(old(config.Contents()), env)
    ensures config.persisted == old(config.persisted)
    ensures opts == OptionsFor(env)
  {
    ApplyIdentity(config, env);
    opts := DeriveOptions(env);
    ApplyBuildNumber(config, env);
    ApplyGlobalPreferences(config, env);
    ApplyPlatformPreferences(config, env);
  }

  /**
   * Lines 131-154 of `run`: prepare, the second write, resolving the project
   * root and pre-processing the options, then the hooks around compile. It
   * stops at the first rejection (a throw inside the `then` callback rejects
   * too) and passes it on unchanged; the second write happens exactly when
   * prepare succeeds.
   */
  method Build(config: Config, opts: Options, tc: Toolchain, preProcess: Options -> Options)
    returns (outcome: Outcome, events: seq<Event>)
    modifies config`persisted
    ensures config.persisted == old(config.persisted) + (if tc.prepare.Succeeds? then [config.Contents()] else [])
    ensures events <= BuildPlan(config.Contents(), opts, preProcess(opts))
    ensures tc.prepare.Fails? ==>
      outcome == Rejected(Propagated(tc.prepare.reason)) && |events| == 1
    ensures tc.prepare.Succeeds? && tc.buildSetup.Fails? ==>
      outcome == Rejected(Propagated(tc.buildSetup.reason)) && |events| == 2
    ensures tc.prepare.Succeeds? && tc.buildSetup.Succeeds? && tc.beforeBuild.Fails? ==>
      outcome == Rejected(Propagated(tc.beforeBuild.reason)) && |events| == 3
    ensures tc.prepare.Succeeds? && tc.buildSetup.Succeeds? && tc.beforeBuild.Succeeds? && tc.compile.Fails? ==>
      outcome == Rejected(Propagated(tc.compile.reason)) && |events| == 4
    ensures tc.prepare.Succeeds? && tc.buildSetup.Succeeds? && tc.beforeBuild.Succeeds? && tc.compile.Succeeds? ==>
      outcome == (if tc.afterBuild.Fails? then Rejected(Propagated(tc.afterBuild.reason)) else Resolved) &&
      |events| == 5
  {
    events := [Prepare(opts)];
    if tc.prepare.Fails? {
      return Rejected(Propagated(tc.prepare.reason)), events;
    }

    // Plugins may have rewritten config.xml during prepare: write ours again.
    config.Write();
    events := events + [WriteConfig(config.Contents())];

    if tc.buildSetup.Fails? {
      return Rejected(Propagated(tc.buildSetup.reason)), events;
    }
    var buildOpts := preProcess(opts);
    events := events + [FireHook(BeforeBuildHook, buildOpts)];
    if tc.beforeBuild.Fails? {
      return Rejected(Propagated(tc.beforeBuild.reason)), events;
    }
    events := events + [Compile(buildOpts)];
    if tc.compile.Fails? {
      return Rejected(Propagated(tc.compile.reason)), events;
    }
    events := events + [FireHook(AfterBuildHook, buildOpts)];
    if tc.afterBuild.Fails? {
      return Rejected(Propagated(tc.afterBuild.reason)), events;
    }
    outcome := Resolved;
  }

  /**
   * `run(args, env)`. Besides the outcome and the trace it returns the
   * descriptor it loaded (null when the run stops before loading one), so
   * that what was written can be compared with the trace.
   */
  method Run(args: seq<string>, env: Env, tc: Toolchain, preProcess: Options -> Options)
    returns (outcome: Outcome, trace: seq<Event>, config: Config?)
    requires env.Valid()
    ensures IsVersionRequest(args) ==> outcome == Resolved && trace == []
    ensures !IsVersionRequest(args) && !HasProjectRoot(tc) ==>
      outcome == Rejected(NotAProject(NotAProjectMessage(tc.cwd))) && trace == [FindProjectRoot(tc.cwd)]
    ensures (config != null) == Proceeds(args, tc)
    ensures config != null ==>
      config.Contents() == Configured(tc.configXml, env) && Written(trace) == config.persisted
    ensures Proceeds(args, tc) ==>
      trace <= Planned(tc.cwd, tc.projectRoot.value, Configured(tc.configXml, env), OptionsFor(env), preProcess(OptionsFor(env)))
    ensures Proceeds(args, tc) && IsConfigOnly(args) ==>
      outcome == Resolved && |trace| == 3
    ensures Proceeds(args, tc) && !IsConfigOnly(args) && tc.prepare.Fails? ==>
      outcome == Rejected(Propagated(tc.prepare.reason)) && |trace| == 4
    ensures Proceeds(args, tc) && !IsConfigOnly(args) && tc.prepare.Succeeds? && tc.buildSetup.Fails? ==>
      outcome == Rejected(Propagated(tc.buildSetup.reason)) && |trace| == 5
    ensures (Proceeds(args, tc) && !IsConfigOnly(args) && tc.prepare.Succeeds? && tc.buildSetup.Succeeds? &&
             tc.beforeBuild.Fails?) ==>
      outcome == Rejected(Propagated(tc.beforeBuild.reason)) && |trace| == 6
    ensures (Proceeds(args, tc) && !IsConfigOnly(args) && tc.prepare.Succeeds? && tc.buildSetup.Succeeds? &&
             tc.beforeBuild.Succeeds? && tc.compile.Fails?) ==>
      outcome == Rejected(Propagated(tc.compile.reason)) && |trace| == 7
    ensures (Proceeds(args, tc) && !IsConfigOnly(args) && tc.prepare.Succeeds? && tc.buildSetup.Succeeds? &&
             tc.beforeBuild.Succeeds? && tc.compile.Succeeds?) ==>
      outcome == (if tc.afterBuild.Fails? then Rejected(Propagated(tc.afterBuild.reason)) else Resolved) &&
      |trace| == 8
  {
    if "-v" in args || "--version" in args {
      return Resolved, [], null;
    }
    if !HasProjectRoot(tc) {
      return Rejected(NotAProject(NotAProjectMessage(tc.cwd))), [FindProjectRoot(tc.cwd)], null;
    }
    var loaded;
    outcome, trace, loaded := RunInProject(args, env, tc, preProcess);
    config := loaded;
  }

  /**
   * Lines 38-154 of `run`, once a project root was found: load the
   * descriptor, mutate and write it, then (unless `--config-only`) build.
   * The trace starts with the root discovery that led here, and its writes
   * are exactly the descriptor's write record.
   */
  method RunInProject(args: seq<string>, env: Env, tc: Toolchain, preProcess: Options -> Options)
    returns (outcome: Outcome, trace: seq<Event>, config: Config)
    requires env.Valid() && HasProjectRoot(tc)
    ensures config.Contents() == Configured(tc.configXml, env)
    ensures Written(trace) == config.persisted
    ensures trace <= Planned(tc.cwd, tc.projectRoot.value, Configured(tc.configXml, env), OptionsFor(env), preProcess(OptionsFor(env)))
    ensures IsConfigOnly(args) ==> outcome == Resolved && |trace| == 3
    ensures !IsConfigOnly(args) && tc.prepare.Fails? ==>
      outcome == Rejected(Propagated(tc.prepare.reason)) && |trace| == 4
    ensures !IsConfigOnly(args) && tc.prepare.Succeeds? && tc.buildSetup.Fails? ==>
      outcome == Rejected(Propagated(tc.buildSetup.reason)) && |trace| == 5
    ensures !IsConfigOnly(args) && tc.prepare.Succeeds? && tc.buildSetup.Succeeds? && tc.beforeBuild.Fails? ==>
      outcome == Rejected(Propagated(tc.beforeBuild.reason)) && |trace| == 6
    ensures (!IsConfigOnly(args) && tc.prepare.Succeeds? && tc.buildSetup.Succeeds? && tc.beforeBuild.Succeeds? &&
             tc.compile.Fails?) ==>
      outcome == Rejected(Propagated(tc.compile.reason)) && |trace| == 7
    ensures (!IsConfigOnly(args) && tc.prepare.Succeeds? && tc.buildSetup.Succeeds? && tc.beforeBuild.Succeeds? &&
             tc.compile.Succeeds?) ==>
      outcome == (if tc.afterBuild.Fails? then Rejected(Propagated(tc.afterBuild.reason)) else Resolved) &&
      |trace| == 8
  {
    var projectRoot := tc.projectRoot.value;
    config := new Config(tc.configXml);
    var opts := Configure(config, env);
    config.Write();

    // The calls so far: root discovery, loading config.xml, the first write.
    var contents := config.Contents();
    trace := [FindProjectRoot(tc.cwd), LoadConfig(projectRoot), WriteConfig(contents)];
    ghost var buildOpts := preProcess(opts);
    ghost var plan := Planned(tc.cwd, projectRoot, contents, opts, buildOpts);
    assert plan == trace + BuildPlan(contents, opts, buildOpts);

    if "--config-only" in args {
      assert trace == plan[..3];
      PlannedStops(tc.cwd, projectRoot, contents, opts, buildOpts, 3);
      return Resolved, trace, config;
    }

    var events;
    outcome, events := Build(config, opts, tc, preProcess);
    PrefixAfter(trace, events, BuildPlan(contents, opts, buildOpts));
    trace := trace + events;
    assert trace == plan[..|trace|];
    PlannedStops(tc.cwd, projectRoot, contents, opts, buildOpts, |trace|);
  }

  /** A prefix of the rest extends to a prefix of the whole. */
  lemma PrefixAfter<T>(head: seq<T>, part: seq<T>, rest: seq<T>)
    requires part <= rest
    ensures head + part <= head + rest
  {
    assert (head + rest)[..|head + part|] == head + part;
  }

  /** The documents the trace's descriptor writes persist, in order. */
  function Written(trace: seq<Event>): seq<Document> {
    if trace == [] then []
    else Written(trace[..|trace| - 1]) + (if trace[|trace| - 1].WriteConfig? then [trace[|trace| - 1].contents] else [])
  }

  /** Number of prepare calls in a trace. */
  function Prepares(trace: seq<Event>): nat {
    if trace == [] then 0 else Prepares(trace[..|trace| - 1]) + (if trace[|trace| - 1].Prepare? then 1 else 0)
  }

  /** Number of compile calls in a trace. */
  function Compiles(trace: seq<Event>): nat {
    if trace == [] then 0 else Compiles(trace[..|trace| - 1]) + (if trace[|trace| - 1].Compile? then 1 else 0)
  }

  /** Extending a prefix by one event adds that event to the writes and to each count. */
  lemma CountsStep(t: seq<Event>, k: nat)
    requires k < |t|
    ensures Written(t[..k + 1]) == Written(t[..k]) + (if t[k].WriteConfig? then [t[k].contents] else [])
    ensures Prepares(t[..k + 1]) == Prepares(t[..k]) + (if t[k].Prepare? then 1 else 0)
    ensures Compiles(t[..k + 1]) == Compiles(t[..k]) + (if t[k].Compile? then 1 else 0)
  {
    assert t[..k + 1][..k] == t[..k];
  }

  /**
   * Wherever a run that found its root stops (after the first write, after
   * prepare, after the second write, or after the before-build hook, compile
   * or the after-build hook), the descriptor was written once before prepare
   * and once more only after prepare succeeded, both times with the same
   * mutated contents; prepare was called at most once, and compile only in a
   * run that got past the before-build hook.
   */
  lemma PlannedStops(cwd: string, projectRoot: string, contents: Document, opts: Options, buildOpts: Options, stop: nat)
    requires 3 <= stop <= 8
    ensures Written(Planned(cwd, projectRoot, contents, opts, buildOpts)[..stop]) ==
      (if stop < 5 then [contents] else [contents, contents])
    ensures Prepares(Planned(cwd, projectRoot, contents, opts, buildOpts)[..stop]) == (if stop < 4 then 0 else 1)
    ensures Compiles(Planned(cwd, projectRoot, contents, opts, buildOpts)[..stop]) == (if stop < 7 then 0 else 1)
  {
    var plan := Planned(cwd, projectRoot, contents, opts, buildOpts);
    for k := 0 to stop
      invariant Written(plan[..k]) == (if k < 3 then [] else if k < 5 then [contents] else [contents, contents])
      invariant Prepares(plan[..k]) == (if k < 4 then 0 else 1)
      invariant Compiles(plan[..k]) == (if k < 7 then 0 else 1)
    {
      CountsStep(plan, k);
    }
  }
}
