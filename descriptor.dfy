/**
 * The project descriptor (`config.xml`) as far as the driver touches it:
 * four identity fields, the root element's attributes, global preferences
 * and per-platform preferences, plus the record of what each `write()`
 * persisted.
 */
module Descriptor {
  import opened Wrappers

  /** A snapshot of the descriptor's contents. */
  datatype Document = Document(
    packageName: string,
    name: string,
    shortName: string,
    version: string,
    rootAttributes: map<string, string>,
    globalPreferences: map<string, string>,
    platformPreferences: map<string, map<string, string>>)
  {
    /** `setGlobalPreference(name, value)`: sets or replaces one global preference. */
    function WithGlobalPreference(pref: string, value: string): (d: Document)
      ensures pref in d.globalPreferences && d.globalPreferences[pref] == value
      ensures forall n :: n != pref ==> Lookup(d.globalPreferences, n) == Lookup(globalPreferences, n)
      ensures d == this.(globalPreferences := d.globalPreferences)
    {
      this.(globalPreferences := globalPreferences[pref := value])
    }

    /**
     * `setPlatformPreference(name, platform, value)`: the platform's section is
     * created when it does not exist yet, then the preference is set or
     * replaced in it.
     */
    function WithPlatformPreference(platform: string, pref: string, value: string): (d: Document)
      ensures PreferenceOf(d.platformPreferences, platform, pref) == Some(value)
      ensures forall p, n :: (p, n) != (platform, pref) ==>
        PreferenceOf(d.platformPreferences, p, n) == PreferenceOf(platformPreferences, p, n)
      ensures d.platformPreferences.Keys == platformPreferences.Keys + {platform}
      ensures d == this.(platformPreferences := d.platformPreferences)
    {
      var section := if platform in platformPreferences then platformPreferences[platform] else map[];
      this.(platformPreferences := platformPreferences[platform := section[pref := value]])
    }

    /** `doc.getroot().attrib[attr] = value`. */
    function WithRootAttribute(attr: string, value: string): (d: Document)
      ensures attr in d.rootAttributes && d.rootAttributes[attr] == value
      ensures forall a :: a != attr ==> Lookup(d.rootAttributes, a) == Lookup(rootAttributes, a)
      ensures d == this.(rootAttributes := d.rootAttributes)
    {
      this.(rootAttributes := rootAttributes[attr := value])
    }
  }

  function Lookup(m: map<string, string>, k: string): Option<string> {
    if k in m then Some(m[k]) else None
  }

  /** The value of preference `pref` in the section of `platform`, if any. */
  function PreferenceOf(prefs: map<string, map<string, string>>, platform: string, pref: string): Option<string> {
    if platform in prefs && pref in prefs[platform] then Some(prefs[platform][pref]) else None
  }

  /**
   * The in-memory descriptor the driver mutates (a `ConfigParser`). Its
   * setters change one part of the contents; `Write` persists the current
   * contents, which `persisted` records write by write.
   */
  class Config {
    var packageName: string
    var name: string
    var shortName: string
    var version: string
    var rootAttributes: map<string, string>
    var globalPreferences: map<string, string>
    var platformPreferences: map<string, map<string, string>>
    var persisted: seq<Document>

    function Contents(): Document
      reads this
    {
      Document(packageName, name, shortName, version, rootAttributes, globalPreferences, platformPreferences)
    }

    /** Loads a descriptor whose file holds `loaded`. */
    constructor (loaded: Document)
      ensures Contents() == loaded && persisted == []
    {
      packageName := loaded.packageName;
      name := loaded.name;
      shortName := loaded.shortName;
      version := loaded.version;
      rootAttributes := loaded.rootAttributes;
      globalPreferences := loaded.globalPreferences;
      platformPreferences := loaded.platformPreferences;
      persisted := [];
    }

    method SetPackageName(id: string)
      modifies this`packageName
      ensures Contents() == old(Contents()).(packageName := id)
    {
      packageName := id;
    }

    method SetName(n: string)
      modifies this`name
      ensures Contents() == old(Contents()).(name := n)
    {
      name := n;
    }

    method SetShortName(n: string)
      modifies this`shortName
      ensures Contents() == old(Contents()).(shortName := n)
    {
      shortName := n;
    }

    method SetVersion(v: string)
      modifies this`version
      ensures Contents() == old(Contents()).(version := v)
    {
      version := v;
    }

    method SetRootAttribute(attr: string, value: string)
      modifies this`rootAttributes
      ensures Contents() == old(Contents()).WithRootAttribute(attr, value)
    {
      rootAttributes := rootAttributes[attr := value];
    }

    method SetGlobalPreference(pref: string, value: string)
      modifies this`globalPreferences
      ensures Contents() == old(Contents()).WithGlobalPreference(pref, value)
    {
      globalPreferences := globalPreferences[pref := value];
    }

    method SetPlatformPreference(pref: string, platform: string, value: string)
      modifies this`platformPreferences
      ensures Contents() == old(Contents()).WithPlatformPreference(platform, pref, value)
    {
      var section := if platform in platformPreferences then platformPreferences[platform] else map[];
      platformPreferences := platformPreferences[platform := section[pref := value]];
    }

    /** `write()`: persists the current contents and changes nothing else. */
    method Write()
      modifies this`persisted
      ensures persisted == old(persisted) + [Contents()]
    {
      persisted := persisted + [Contents()];
    }
  }
}
