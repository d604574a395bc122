/** The profile table: named API configurations, the name of the default
    one, and the file they are kept in. Writing the file is an opaque
    effect: each save appends the table as it stands to `saved`. */
module Config {
  import opened GoText
  import Paths

  /** One provider configuration; `name` is not written to the file. */
  datatype APIConfig = APIConfig(
    name: string,
    provider: string,
    apiKey: string,
    apiBase: string,
    model: string,
    deployment: string,
    maxTokens: int,
    version: string,
    appID: string,
    agentID: string,
    authType: string,
    authKey: string)

  /** The zero value `types.APIConfig{}`. */
  const ZeroConfig := APIConfig("", "", "", "", "", "", 0, "", "", "", "", "")

  datatype ConfigError =
    | ProfileDoesNotExist(name: string)
    | ProfileNotFound(name: string)
    | LoadFailed(reason: string)

  /** What one save writes: the default name and the table (`None` is a nil
      table, written as `null`). */
  datatype Snapshot = Snapshot(defaultProfile: string, profiles: Option<map<string, APIConfig>>)

  /** What the profile file holds when it is loaded. */
  datatype StoredFile =
    | NoFile
      /** the directory cannot be made, the file cannot be read or it is not valid JSON */
    | Unreadable(reason: string)
    | Stored(defaultProfile: string, profiles: Option<map<string, APIConfig>>)

  /** The file's location relative to the home directory. */
  const DefaultConfigPath := ".config/akashaterminal/profiles.json"

  /** Decoding drops `name`, which the file does not carry. */
  function Decoded(profiles: Option<map<string, APIConfig>>): (r: Option<map<string, APIConfig>>)
    ensures r.Some? <==> profiles.Some?
    ensures r.Some? ==> (r.value.Keys == profiles.value.Keys
      && forall n :: n in r.value ==> r.value[n] == profiles.value[n].(name := ""))
  {
    match profiles
    case None => None
    case Some(m) => Some(map n | n in m :: m[n].(name := ""))
  }

  class ConfigManager {
    var path: string
    var defaultProfile: string
    /** `None` is the nil map a fresh manager starts with. */
    var profiles: Option<map<string, APIConfig>>
    /** Every save so far, oldest first. */
    var saved: seq<Snapshot>

    /** The table as lookups see it: a nil map reads as empty. */
    function Table(): (t: map<string, APIConfig>)
      reads this
      ensures profiles.None? ==> t == map[]
      ensures profiles.Some? ==> t == profiles.value
    {
      if profiles.Some? then profiles.value else map[]
    }

    /** `NewConfigManager`, with the home directory as a parameter. */
    constructor(homeDir: string)
      ensures path == Paths.Join(homeDir, DefaultConfigPath)
      ensures defaultProfile == "" && profiles == None && saved == []
    {
      path := Paths.Join(homeDir, DefaultConfigPath);
      defaultProfile := "";
      profiles := None;
      saved := [];
    }

    method Save()
      modifies this
      ensures saved == old(saved) + [Snapshot(defaultProfile, profiles)]
      ensures path == old(path) && defaultProfile == old(defaultProfile) && profiles == old(profiles)
    {
      saved := saved + [Snapshot(defaultProfile, profiles)];
    }

    /** A missing file starts an empty table and saves it; a stored file
        replaces the default and the table, which may be nil. */
    method Load(stored: StoredFile) returns (err: Option<ConfigError>)
      modifies this
      ensures path == old(path)
      ensures stored.NoFile? ==> (err == None && profiles == Some(map[])
        && defaultProfile == old(defaultProfile)
        && saved == old(saved) + [Snapshot(old(defaultProfile), Some(map[]))])
      ensures stored.Unreadable? ==> (err == Some(LoadFailed(stored.reason))
        && defaultProfile == old(defaultProfile) && profiles == old(profiles) && saved == old(saved))
      ensures stored.Stored? ==> (err == None && defaultProfile == stored.defaultProfile
        && profiles == Decoded(stored.profiles) && saved == old(saved))
    {
      match stored
      case NoFile =>
        profiles := Some(map[]);
        Save();
        err := None;
      case Unreadable(reason) =>
        err := Some(LoadFailed(reason));
      case Stored(d, p) =>
        defaultProfile := d;
        profiles := Decoded(p);
        err := None;
    }

    /** Adding to a nil table panics in Go, hence the requirement. */
    method AddProfile(name: string, config: APIConfig)
      requires profiles.Some?
      modifies this
      ensures profiles == Some(old(Table())[name := config])
      ensures path == old(path) && defaultProfile == old(defaultProfile)
      ensures saved == old(saved) + [Snapshot(defaultProfile, profiles)]
    {
      profiles := Some(profiles.value[name := config]);
      Save();
    }

    /** Deleting from a nil table is a no-op in Go. */
    method DeleteProfile(name: string)
      modifies this
      ensures profiles == (if old(profiles).None? then None else Some(old(Table()) - {name}))
      ensures path == old(path) && defaultProfile == old(defaultProfile)
      ensures saved == old(saved) + [Snapshot(defaultProfile, profiles)]
    {
      if profiles.Some? {
        profiles := Some(profiles.value - {name});
      }
      Save();
    }

    method SetDefault(name: string) returns (err: Option<ConfigError>)
      modifies this
      ensures path == old(path) && profiles == old(profiles)
      ensures name !in old(Table()) ==> (err == Some(ProfileDoesNotExist(name))
        && defaultProfile == old(defaultProfile) && saved == old(saved))
      ensures name in old(Table()) ==> (err == None && defaultProfile == name
        && saved == old(saved) + [Snapshot(name, profiles)])
    {
      if name !in Table() {
        return Some(ProfileDoesNotExist(name));
      }
      defaultProfile := name;
      Save();
      err := None;
    }

    /** The stored configuration, or the zero configuration and an error. */
    function GetProfile(name: string): (r: (APIConfig, Option<ConfigError>))
      reads this
      ensures name in Table() <==> r.1 == None
      ensures name in Table() ==> r.0 == Table()[name]
      ensures name !in Table() ==> r == (ZeroConfig, Some(ProfileNotFound(name)))
    {
      if name in Table() then (Table()[name], None) else (ZeroConfig, Some(ProfileNotFound(name)))
    }

    /** After adding `name`, looking it up gives the configuration added,
        and every other name still gives what it gave before. */
    method AddThenGet(name: string, config: APIConfig, other: string)
      returns (got: (APIConfig, Option<ConfigError>), otherBefore: (APIConfig, Option<ConfigError>),
               otherAfter: (APIConfig, Option<ConfigError>))
      requires profiles.Some?
      modifies this
      ensures got == (config, None)
      ensures other != name ==> otherAfter == otherBefore
    {
      otherBefore := GetProfile(other);
      AddProfile(name, config);
      got := GetProfile(name);
      otherAfter := GetProfile(other);
    }

    /** After deleting `name`, looking it up fails, and the default is not
        cleared even when it named the deleted profile. */
    method DeleteThenGet(name: string) returns (got: (APIConfig, Option<ConfigError>))
      modifies this
      ensures got == (ZeroConfig, Some(ProfileNotFound(name)))
      ensures defaultProfile == old(defaultProfile)
    {
      DeleteProfile(name);
      got := GetProfile(name);
    }
  }

  /** For an absolute home directory the profile file lies inside it. */
  lemma ConfigPathInHome(homeDir: string)
    requires Paths.IsAbs(homeDir)
    ensures HasPrefix(Paths.Join(homeDir, DefaultConfigPath), Paths.Clean(homeDir))
  {
    DefaultConfigSegments();
    Paths.CleanExtends(homeDir, DefaultConfigPath);
  }

  lemma DefaultConfigJoin()
    ensures Paths.JoinSegs([".config", "akashaterminal", "profiles.json"]) == DefaultConfigPath
  {
    AppDirJoin();
    Paths.JoinCons(".config", ["akashaterminal", "profiles.json"]);
    assert ".config" + "/" + "akashaterminal/profiles.json" == DefaultConfigPath;
  }

  lemma AppDirJoin()
    ensures Paths.JoinSegs(["akashaterminal", "profiles.json"]) == "akashaterminal/profiles.json"
  {
    Paths.JoinCons("akashaterminal", ["profiles.json"]);
    assert "akashaterminal" + "/" + "profiles.json" == "akashaterminal/profiles.json";
  }

  lemma DefaultConfigSegments()
    ensures ".." !in Paths.Split(DefaultConfigPath)
  {
    DefaultConfigJoin();
    Paths.SplitJoin([".config", "akashaterminal", "profiles.json"]);
  }
}
