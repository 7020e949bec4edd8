/**
 * What the driver does to the descriptor for a given environment: the
 * identity fields, the build number on three root attributes, and one
 * preference per `SEY_PREFERENCE_*` or `SEY_<PLATFORM>_PREFERENCE_*`
 * variable, in `Object.keys` order.
 */
module Mutations {
  import opened Wrappers
  import opened EnvKeys
  import opened Descriptor

  const AppIdVar := "SEY_APP_ID"
  const AppNameVar := "SEY_APP_NAME"
  const AppShortNameVar := "SEY_APP_SHORTNAME"
  const AppVersionVar := "SEY_APP_VERSION"
  const BuildNumberVar := "SEY_BUILD_NUMBER"

  /**
   * The root attributes that receive the build number. The Windows package
   * version is not among them: it has to be a four-part version.
   */
  const BuildNumberAttributes := ["android-versionCode", "ios-CFBundleVersion", "osx-CFBundleVersion"]

  /** Every key in `keys` has a value in `env`. */
  ghost predicate KeysHaveValues(env: Env, keys: seq<string>) {
    forall k :: k in keys ==> k in env.vars
  }

  /**
   * The four identity setters, each applied only when its variable is
   * truthy: a truthy variable's value replaces its field, a falsy one leaves
   * it, and nothing but the four identity fields changes.
   */
  function WithIdentity(d: Document, env: Env): (r: Document)
    ensures Truthy(env, AppIdVar) ==> r.packageName == env.vars[AppIdVar]
    ensures Truthy(env, AppNameVar) ==> r.name == env.vars[AppNameVar]
    ensures Truthy(env, AppShortNameVar) ==> r.shortName == env.vars[AppShortNameVar]
    ensures Truthy(env, AppVersionVar) ==> r.version == env.vars[AppVersionVar]
    ensures r == d.(packageName := r.packageName, name := r.name, shortName := r.shortName, version := r.version)
    ensures (!Truthy(env, AppIdVar) && !Truthy(env, AppNameVar) && !Truthy(env, AppShortNameVar) &&
             !Truthy(env, AppVersionVar)) ==> r == d
  {
    d.(packageName := if Truthy(env, AppIdVar) then env.vars[AppIdVar] else d.packageName,
       name := if Truthy(env, AppNameVar) then env.vars[AppNameVar] else d.name,
       shortName := if Truthy(env, AppShortNameVar) then env.vars[AppShortNameVar] else d.shortName,
       version := if Truthy(env, AppVersionVar) then env.vars[AppVersionVar] else d.version)
  }

  /** `attrs.forEach(attr => root.attrib[attr] = value)`: each listed attribute takes `value`. */
  function WithAttributes(d: Document, attrs: seq<string>, value: string): (r: Document)
    ensures forall a :: a in attrs ==> Lookup(r.rootAttributes, a) == Some(value)
    ensures forall a :: a !in attrs ==> Lookup(r.rootAttributes, a) == Lookup(d.rootAttributes, a)
    ensures r == d.(rootAttributes := r.rootAttributes)
    ensures d.rootAttributes.Keys <= r.rootAttributes.Keys
    decreases |attrs|
  {
    if attrs == [] then d
    else WithAttributes(d, attrs[..|attrs| - 1], value).WithRootAttribute(attrs[|attrs| - 1], value)
  }

  /**
   * The build number, when set, written to exactly the three attributes;
   * every other root attribute, and everything else, is left as it was.
   */
  function WithBuildNumber(d: Document, env: Env): (r: Document)
    ensures forall a ::
      Lookup(r.rootAttributes, a) ==
        if Truthy(env, BuildNumberVar) && a in BuildNumberAttributes then Some(env.vars[BuildNumberVar])
        else Lookup(d.rootAttributes, a)
    ensures r == d.(rootAttributes := r.rootAttributes)
    ensures d.rootAttributes.Keys <= r.rootAttributes.Keys
  {
    if Truthy(env, BuildNumberVar) then WithAttributes(d, BuildNumberAttributes, env.vars[BuildNumberVar]) else d
  }

  /** One global-preference set per key of `keys` that names a global preference, in order. */
  function WithGlobalPreferences(d: Document, env: Env, keys: seq<string>): (r: Document)
    requires KeysHaveValues(env, keys)
    ensures r == d.(globalPreferences := r.globalPreferences)
    ensures d.globalPreferences.Keys <= r.globalPreferences.Keys
    decreases |keys|
  {
    if keys == [] then d
    else
      var d' := WithGlobalPreferences(d, env, keys[..|keys| - 1]);
      var k := keys[|keys| - 1];
      match GlobalPreferenceName(k)
      case Some(pref) => d'.WithGlobalPreference(pref, env.vars[k])
      case None => d'
  }

  /** One platform-preference set per key of `keys` that names a platform preference, in order. */
  function WithPlatformPreferences(d: Document, env: Env, keys: seq<string>): (r: Document)
    requires KeysHaveValues(env, keys)
    ensures r == d.(platformPreferences := r.platformPreferences)
    ensures d.platformPreferences.Keys <= r.platformPreferences.Keys
    decreases |keys|
  {
    if keys == [] then d
    else
      var d' := WithPlatformPreferences(d, env, keys[..|keys| - 1]);
      var k := keys[|keys| - 1];
      match PlatformPreference(k)
      case Some(pk) => d'.WithPlatformPreference(pk.platform, pk.name, env.vars[k])
      case None => d'
  }

  /**
   * Everything the driver does to the loaded descriptor before the first
   * write. It only adds or replaces entries: no root attribute, global
   * preference or platform section disappears.
   */
  function Configured(d: Document, env: Env): (r: Document)
    requires env.Valid()
    ensures d.rootAttributes.Keys <= r.rootAttributes.Keys
    ensures d.globalPreferences.Keys <= r.globalPreferences.Keys
    ensures d.platformPreferences.Keys <= r.platformPreferences.Keys
  {
    var d1 := WithBuildNumber(WithIdentity(d, env), env);
    WithPlatformPreferences(WithGlobalPreferences(d1, env, env.keys), env, env.keys)
  }

  /**
   * Every `SEY_PREFERENCE_<name>` key sets global preference `<name>` to its
   * value; every other global preference is left as it was, and nothing but
   * the global preferences changes.
   */
  lemma {:induction false} GlobalPreferencesResult(d: Document, env: Env, keys: seq<string>)
    requires KeysHaveValues(env, keys)
    ensures WithGlobalPreferences(d, env, keys) == d.(globalPreferences := WithGlobalPreferences(d, env, keys).globalPreferences)
    ensures forall n :: GlobalKey(n) in keys ==>
      Lookup(WithGlobalPreferences(d, env, keys).globalPreferences, n) == Some(env.vars[GlobalKey(n)])
    ensures forall n :: GlobalKey(n) !in keys ==>
      Lookup(WithGlobalPreferences(d, env, keys).globalPreferences, n) == Lookup(d.globalPreferences, n)
    decreases |keys|
  {
    if keys != [] {
      var prefix := keys[..|keys| - 1];
      var k := keys[|keys| - 1];
      assert keys == prefix + [k];
      GlobalPreferencesResult(d, env, prefix);
      var d' := WithGlobalPreferences(d, env, prefix);
      var r := WithGlobalPreferences(d, env, keys);
      forall n
        ensures GlobalKey(n) in keys ==> Lookup(r.globalPreferences, n) == Some(env.vars[GlobalKey(n)])
        ensures GlobalKey(n) !in keys ==> Lookup(r.globalPreferences, n) == Lookup(d.globalPreferences, n)
      {
        GlobalPreferenceNameOfKey(n);
      }
    }
  }

  /** Among `keys`, no later key names the same (platform, preference) pair as `keys[i]`. */
  ghost predicate LastSetter(keys: seq<string>, i: int)
    requires 0 <= i < |keys|
  {
    forall j :: i < j < |keys| ==> PlatformPreference(keys[j]) != PlatformPreference(keys[i])
  }

  /**
   * A (platform, preference) pair that some key names ends up with the value
   * of the last such key; a pair no key names keeps its value (or absence);
   * no platform section disappears, and nothing but the platform preferences
   * changes.
   */
  lemma {:induction false} PlatformPreferencesResult(d: Document, env: Env, keys: seq<string>)
    requires KeysHaveValues(env, keys)
    ensures WithPlatformPreferences(d, env, keys) == d.(platformPreferences := WithPlatformPreferences(d, env, keys).platformPreferences)
    ensures forall i :: 0 <= i < |keys| && PlatformPreference(keys[i]).Some? && LastSetter(keys, i) ==>
      PreferenceOf(WithPlatformPreferences(d, env, keys).platformPreferences,
                   PlatformPreference(keys[i]).value.platform, PlatformPreference(keys[i]).value.name)
        == Some(env.vars[keys[i]])
    ensures forall pk: PlatformKey :: (forall k :: k in keys ==> PlatformPreference(k) != Some(pk)) ==>
      PreferenceOf(WithPlatformPreferences(d, env, keys).platformPreferences, pk.platform, pk.name)
        == PreferenceOf(d.platformPreferences, pk.platform, pk.name)
    ensures d.platformPreferences.Keys <= WithPlatformPreferences(d, env, keys).platformPreferences.Keys
    decreases |keys|
  {
    if keys != [] {
      var prefix := keys[..|keys| - 1];
      var last := |keys| - 1;
      var k := keys[last];
      PlatformPreferencesResult(d, env, prefix);
      var d' := WithPlatformPreferences(d, env, prefix);
      var r := WithPlatformPreferences(d, env, keys);
      forall i | 0 <= i < |keys| && PlatformPreference(keys[i]).Some? && LastSetter(keys, i)
        ensures PreferenceOf(r.platformPreferences, PlatformPreference(keys[i]).value.platform,
                             PlatformPreference(keys[i]).value.name) == Some(env.vars[keys[i]])
      {
        if i < last {
          assert prefix[i] == keys[i];
          assert LastSetter(prefix, i) by {
            forall j | i < j < |prefix| ensures PlatformPreference(prefix[j]) != PlatformPreference(prefix[i]) {
              assert prefix[j] == keys[j];
            }
          }
          assert PlatformPreference(k) != PlatformPreference(keys[i]);
        }
      }
      forall pk: PlatformKey | forall k' :: k' in keys ==> PlatformPreference(k') != Some(pk)
        ensures PreferenceOf(r.platformPreferences, pk.platform, pk.name) == PreferenceOf(d.platformPreferences, pk.platform, pk.name)
      {
        assert k in keys;
        assert forall k' :: k' in prefix ==> k' in keys;
      }
    }
  }

  /**
   * The descriptor after the driver's mutations: each identity field is the
   * variable's value when that variable is truthy and unchanged otherwise;
   * with `SEY_BUILD_NUMBER` truthy exactly the three build-number attributes
   * take its value, and no other root attribute changes; preferences follow
   * GlobalPreferencesResult and PlatformPreferencesResult.
   */
  lemma ConfiguredResult(d: Document, env: Env)
    requires env.Valid()
    ensures Configured(d, env).packageName == (if Truthy(env, AppIdVar) then env.vars[AppIdVar] else d.packageName)
    ensures Configured(d, env).name == (if Truthy(env, AppNameVar) then env.vars[AppNameVar] else d.name)
    ensures Configured(d, env).shortName == (if Truthy(env, AppShortNameVar) then env.vars[AppShortNameVar] else d.shortName)
    ensures Configured(d, env).version == (if Truthy(env, AppVersionVar) then env.vars[AppVersionVar] else d.version)
    ensures forall a ::
      Lookup(Configured(d, env).rootAttributes, a) ==
        if Truthy(env, BuildNumberVar) && a in BuildNumberAttributes then Some(env.vars[BuildNumberVar])
        else Lookup(d.rootAttributes, a)
    ensures forall n ::
      Lookup(Configured(d, env).globalPreferences, n) ==
        if GlobalKey(n) in env.vars then Some(env.vars[GlobalKey(n)]) else Lookup(d.globalPreferences, n)
    ensures forall i :: 0 <= i < |env.keys| && PlatformPreference(env.keys[i]).Some? && LastSetter(env.keys, i) ==>
      PreferenceOf(Configured(d, env).platformPreferences,
                   PlatformPreference(env.keys[i]).value.platform, PlatformPreference(env.keys[i]).value.name)
        == Some(env.vars[env.keys[i]])
    ensures forall pk: PlatformKey :: (forall k :: k in env.vars ==> PlatformPreference(k) != Some(pk)) ==>
      PreferenceOf(Configured(d, env).platformPreferences, pk.platform, pk.name)
        == PreferenceOf(d.platformPreferences, pk.platform, pk.name)
  {
    var d1 := WithBuildNumber(WithIdentity(d, env), env);
    GlobalPreferencesResult(d1, env, env.keys);
    var d2 := WithGlobalPreferences(d1, env, env.keys);
    PlatformPreferencesResult(d2, env, env.keys);
  }

  /** `if (env.SEY_APP_ID) config.setPackageName(...)` and the three setters after it. */
  method ApplyIdentity(config: Config, env: Env)
    modifies config
    ensures config.Contents() == WithIdentity(old(config.Contents()), env)
    ensures config.persisted == old(config.persisted)
  {
    if Truthy(env, AppIdVar) {
      config.SetPackageName(env.vars[AppIdVar]);
    }
    if Truthy(env, AppNameVar) {
      config.SetName(env.vars[AppNameVar]);
    }
    if Truthy(env, AppShortNameVar) {
      config.SetShortName(env.vars[AppShortNameVar]);
    }
    if Truthy(env, AppVersionVar) {
      config.SetVersion(env.vars[AppVersionVar]);
    }
  }

  /** Writes a truthy `SEY_BUILD_NUMBER` into each build-number attribute in turn. */
  method ApplyBuildNumber(config: Config, env: Env)
    modifies config
    ensures config.Contents() == WithBuildNumber(old(config.Contents()), env)
    ensures config.persisted == old(config.persisted)
  {
    if Truthy(env, BuildNumberVar) {
      var value := env.vars[BuildNumberVar];
      ghost var d := config.Contents();
      for i := 0 to |BuildNumberAttributes|
        invariant config.Contents() == WithAttributes(d, BuildNumberAttributes[..i], value)
        invariant config.persisted == old(config.persisted)
      {
        config.SetRootAttribute(BuildNumberAttributes[i], value);
        assert BuildNumberAttributes[..i + 1][..i] == BuildNumberAttributes[..i];
      }
      assert BuildNumberAttributes[..|BuildNumberAttributes|] == BuildNumberAttributes;
    }
  }

  /** Visits the keys in order and sets a global preference for each `SEY_PREFERENCE_*` key. */
  method ApplyGlobalPreferences(config: Config, env: Env)
    requires env.Valid()
    modifies config
    ensures config.Contents() == WithGlobalPreferences(old(config.Contents()), env, env.keys)
    ensures config.persisted == old(config.persisted)
  {
    ghost var d := config.Contents();
    for i := 0 to |env.keys|
      invariant config.Contents() == WithGlobalPreferences(d, env, env.keys[..i])
      invariant config.persisted == old(config.persisted)
    {
      var key := env.keys[i];
      match GlobalPreferenceName(key) {
        case Some(pref) => config.SetGlobalPreference(pref, env.vars[key]);
        case None =>
      }
      assert env.keys[..i + 1][..i] == env.keys[..i];
    }
    assert env.keys[..|env.keys|] == env.keys;
  }

  /** Visits the keys in order and sets a platform preference for each `SEY_<PLATFORM>_PREFERENCE_*` key. */
  method ApplyPlatformPreferences(config: Config, env: Env)
    requires env.Valid()
    modifies config
    ensures config.Contents() == WithPlatformPreferences(old(config.Contents()), env, env.keys)
    ensures config.persisted == old(config.persisted)
  {
    ghost var d := config.Contents();
    for i := 0 to |env.keys|
      invariant config.Contents() == WithPlatformPreferences(d, env, env.keys[..i])
      invariant config.persisted == old(config.persisted)
    {
      var key := env.keys[i];
      match PlatformPreference(key) {
        case Some(pk) => config.SetPlatformPreference(pk.name, pk.platform, env.vars[key]);
        case None =>
      }
      assert env.keys[..i + 1][..i] == env.keys[..i];
    }
    assert env.keys[..|env.keys|] == env.keys;
  }
}
