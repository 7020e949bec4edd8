/**
 * The process environment as the driver sees it, and the two patterns that
 * turn an environment variable name into a descriptor preference:
 * `SEY_PREFERENCE_<name>` (global) and `SEY_<PLATFORM>_PREFERENCE_<name>`
 * (scoped to one platform).
 */
module EnvKeys {
  import opened Wrappers
  import opened Text

  /**
   * An environment: the variable values, and `keys`, the order in which
   * `Object.keys(env)` enumerates them.
   */
  datatype Env = Env(vars: map<string, string>, keys: seq<string>) {
    /** `Object.keys` lists every variable exactly once. */
    ghost predicate Valid() {
      (forall k :: k in keys <==> k in vars) &&
      (forall i, j :: 0 <= i < j < |keys| ==> keys[i] != keys[j])
    }
  }

  /** JavaScript truthiness of `env[name]`: present and not the empty string. */
  predicate Truthy(env: Env, name: string) {
    name in env.vars && env.vars[name] != ""
  }

  const GlobalPreferencePrefix := "SEY_PREFERENCE_"
  const VariablePrefix := "SEY_"
  const PreferenceMarker := "_PREFERENCE_"

  /** The variable name that sets global preference `name`. */
  function GlobalKey(name: string): string {
    GlobalPreferencePrefix + name
  }

  /**
   * `/^SEY_PREFERENCE_/` matches `key`; the preference name is what
   * `replace` leaves once that prefix is removed.
   */
  function GlobalPreferenceName(key: string): (r: Option<string>)
    ensures r.Some? <==> HasPrefix(key, GlobalPreferencePrefix)
    ensures r.Some? ==> key == GlobalKey(r.value)
  {
    if HasPrefix(key, GlobalPreferencePrefix)
    then Some(key[|GlobalPreferencePrefix|..])
    else None
  }

  /** A global preference name is read back from the variable that sets it. */
  lemma GlobalPreferenceNameOfKey(name: string)
    ensures GlobalPreferenceName(GlobalKey(name)) == Some(name)
  {
    assert GlobalKey(name)[..|GlobalPreferencePrefix|] == GlobalPreferencePrefix;
  }

  predicate IsLetter(c: char) {
    'A' <= c <= 'Z' || 'a' <= c <= 'z'
  }

  predicate AllLetters(s: string) {
    forall i :: 0 <= i < |s| ==> IsLetter(s[i])
  }

  /** Every character is a lower-case ASCII letter. */
  predicate AllLowerLetters(s: string) {
    forall i :: 0 <= i < |s| ==> 'a' <= s[i] <= 'z'
  }

  /** Length of the longest prefix of `s` made of ASCII letters (`[A-Za-z]*`). */
  function LetterRun(s: string): (n: nat)
    ensures n <= |s|
    ensures AllLetters(s[..n])
    ensures n < |s| ==> !IsLetter(s[n])
    decreases |s|
  {
    if s != [] && IsLetter(s[0]) then 1 + LetterRun(s[1..]) else 0
  }

  /** The (platform, preference name) pair a platform-scoped variable sets. */
  datatype PlatformKey = PlatformKey(platform: string, name: string)

  /**
   * The regular expression `/^SEY_([A-Za-z]+)_PREFERENCE_/` matches `key`,
   * with the letters ending just before index `j`.
   */
  ghost predicate PlatformPatternAt(key: string, j: int) {
    HasPrefix(key, VariablePrefix) && |VariablePrefix| < j && j + |PreferenceMarker| <= |key| &&
    AllLetters(key[|VariablePrefix|..j]) && key[j..j + |PreferenceMarker|] == PreferenceMarker
  }

  ghost predicate MatchesPlatformPattern(key: string) {
    exists j :: PlatformPatternAt(key, j)
  }

  /**
   * The platform token (`[A-Za-z]+` right after `SEY_`, lower-cased) and the
   * preference name (everything after `_PREFERENCE_`) of a platform-scoped
   * variable, or None when the name does not have that shape.
   */
  function PlatformPreference(key: string): (r: Option<PlatformKey>)
    ensures !HasPrefix(key, VariablePrefix) ==> r.None?
    ensures r.Some? ==> r.value.platform != "" && AllLowerLetters(r.value.platform)
    ensures r.Some? ==>
      |VariablePrefix| + |r.value.platform| + |PreferenceMarker| + |r.value.name| == |key| &&
      key[|key| - |r.value.name|..] == r.value.name
  {
    if !HasPrefix(key, VariablePrefix) then None
    else
      var j := |VariablePrefix| + LetterRun(key[|VariablePrefix|..]);
      if j > |VariablePrefix| && HasPrefix(key[j..], PreferenceMarker)
      then
        assert key[|VariablePrefix|..][..j - |VariablePrefix|] == key[|VariablePrefix|..j];
        Some(PlatformKey(LowerStr(key[|VariablePrefix|..j]), key[j + |PreferenceMarker|..]))
      else None
  }

  /** A run of `m` letters followed by a non-letter is the maximal letter run. */
  lemma LetterRunEndsAt(s: string, m: nat)
    requires m < |s| && AllLetters(s[..m]) && !IsLetter(s[m])
    ensures LetterRun(s) == m
  {
  }

  /** The letter run of the pattern can only end where the maximal run of letters ends. */
  lemma PlatformPatternUnique(key: string, j: int)
    requires PlatformPatternAt(key, j)
    ensures j == |VariablePrefix| + LetterRun(key[|VariablePrefix|..])
  {
    var s := key[|VariablePrefix|..];
    var m := j - |VariablePrefix|;
    assert s[..m] == key[|VariablePrefix|..j];
    assert key[j..j + |PreferenceMarker|][0] == PreferenceMarker[0] == '_';
    assert s[m] == key[j];
    LetterRunEndsAt(s, m);
  }

  /**
   * The parser accepts exactly the names the regular expression matches, and
   * for any match it returns the lower-cased letters and the text after the
   * `_PREFERENCE_` marker.
   */
  lemma PlatformPreferenceIsPattern(key: string)
    ensures PlatformPreference(key).Some? <==> MatchesPlatformPattern(key)
    ensures forall j :: PlatformPatternAt(key, j) ==>
      PlatformPreference(key) == Some(PlatformKey(LowerStr(key[|VariablePrefix|..j]), key[j + |PreferenceMarker|..]))
  {
    if PlatformPreference(key).Some? {
      var j := |VariablePrefix| + LetterRun(key[|VariablePrefix|..]);
      assert key[|VariablePrefix|..][..j - |VariablePrefix|] == key[|VariablePrefix|..j];
      assert key[j..][..|PreferenceMarker|] == key[j..j + |PreferenceMarker|];
      assert PlatformPatternAt(key, j);
    }
    forall j | PlatformPatternAt(key, j)
      ensures PlatformPreference(key) == Some(PlatformKey(LowerStr(key[|VariablePrefix|..j]), key[j + |PreferenceMarker|..]))
    {
      PlatformPatternUnique(key, j);
      assert key[j..][..|PreferenceMarker|] == key[j..j + |PreferenceMarker|];
    }
  }

  /** Composing a variable name from its parts and parsing it gives the parts back. */
  lemma PlatformPreferenceOfKey(letters: string, name: string)
    requires |letters| > 0 && AllLetters(letters)
    ensures PlatformPreference(VariablePrefix + letters + PreferenceMarker + name)
         == Some(PlatformKey(LowerStr(letters), name))
  {
    var key := VariablePrefix + letters + PreferenceMarker + name;
    var j := |VariablePrefix| + |letters|;
    assert key[..|VariablePrefix|] == VariablePrefix;
    assert key[|VariablePrefix|..j] == letters;
    assert key[j..j + |PreferenceMarker|] == PreferenceMarker;
    assert key[j + |PreferenceMarker|..] == name;
    assert PlatformPatternAt(key, j);
    PlatformPreferenceIsPattern(key);
  }

  /** The variable from the test suite: `SEY_IOS_PREFERENCE_sas_api_key`. */
  lemma IosPreferenceExample()
    ensures PlatformPreference("SEY_IOS_PREFERENCE_sas_api_key") == Some(PlatformKey("ios", "sas_api_key"))
  {
    var key := VariablePrefix + "IOS" + PreferenceMarker + "sas_api_key";
    assert key == "SEY_IOS_PREFERENCE_sas_api_key";
    assert LowerStr("IOS") == "ios";
    PlatformPreferenceOfKey("IOS", "sas_api_key");
  }

  /**
   * A name can match both patterns: `SEY_PREFERENCE_PREFERENCE_x` sets the
   * global preference `PREFERENCE_x` and the `preference` platform's `x`.
   */
  lemma BothPatternsExample()
    ensures GlobalPreferenceName("SEY_PREFERENCE_PREFERENCE_x") == Some("PREFERENCE_x")
    ensures PlatformPreference("SEY_PREFERENCE_PREFERENCE_x") == Some(PlatformKey("preference", "x"))
  {
    var key := "SEY_PREFERENCE_PREFERENCE_x";
    assert key == GlobalKey("PREFERENCE_x") by {
      assert key == GlobalPreferencePrefix + "PREFERENCE_x";
    }
    GlobalPreferenceNameOfKey("PREFERENCE_x");
    assert key == VariablePrefix + "PREFERENCE" + PreferenceMarker + "x";
    assert LowerStr("PREFERENCE") == "preference";
    PlatformPreferenceOfKey("PREFERENCE", "x");
  }
}
