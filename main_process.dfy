/**
 * The privileged main process: the IPC handlers that read and write the
 * profile files and the secrets file, and the rules of the launch handler.
 * The file system is an abstract map from path to contents; JSON parsing and
 * serialisation are opaque functions the backend is constructed with.
 */
module MainProcess {
  import opened Wrappers
  import opened AgentProfile
  import Text

  /** The profiles directory of the automation project, as a path prefix. */
  const ProfilesDir: string := "mindcraft/profiles/"
  /** The template every new profile is copied from. */
  const TemplatePath: string := "mindcraft/andy.json"
  /** The secrets file in the per-installation data directory. */
  const ConfigFilePath: string := "userData/config.json"

  const CompletedMessage: string := "Process completed successfully"
  const ExitedPrefix: string := "Process exited with code "

  datatype FsError = NotFound(path: string) | Malformed(path: string) | WriteFailed(path: string)

  /** The file that load-agent-config and save-agent-config use: the name verbatim. */
  function ProfileFilePath(name: string): string
  {
    ProfilesDir + name
  }

  /** The file that create-agent writes: the name with ".json" appended. */
  function NewProfileFilePath(name: string): string
  {
    ProfilesDir + name + ".json"
  }

  predicate IsProfileEntry(path: string)
  {
    |path| > |ProfilesDir| && path[..|ProfilesDir|] == ProfilesDir && '/' !in path[|ProfilesDir|..]
  }

  /** What `readdir` of the profiles directory lists: the names of the files directly inside it. */
  function AgentEntries(files: map<string, string>): set<string>
  {
    set p | p in files && IsProfileEntry(p) :: p[|ProfilesDir|..]
  }

  /** A name is listed iff a file of exactly that name lies directly in the profiles directory. */
  lemma AgentEntriesMembership(files: map<string, string>, name: string)
    ensures name in AgentEntries(files) <==> name != "" && '/' !in name && ProfileFilePath(name) in files
  {
    var p := ProfileFilePath(name);
    assert p[..|ProfilesDir|] == ProfilesDir && p[|ProfilesDir|..] == name;
    if name in AgentEntries(files) {
      var q :| q in files && IsProfileEntry(q) && q[|ProfilesDir|..] == name;
      assert q == q[..|ProfilesDir|] + q[|ProfilesDir|..];
    }
  }

  /** The secrets as the main process sees them: the parsed file, or the empty map if it is missing or not valid. */
  function ReadSecrets(files: map<string, string>, parse: string -> Option<map<string, string>>): map<string, string>
  {
    if ConfigFilePath in files && parse(files[ConfigFilePath]).Some? then parse(files[ConfigFilePath]).value
    else map[]
  }

  /** load-agent-config: a missing file or one that does not parse rejects, with distinguishable errors. */
  function ReadProfile(files: map<string, string>, parse: string -> Option<AgentConfig>, name: string): (r: Result<AgentConfig, FsError>)
    ensures r == Failure(NotFound(ProfileFilePath(name))) <==> ProfileFilePath(name) !in files
    ensures r == Failure(Malformed(ProfileFilePath(name))) <==>
      ProfileFilePath(name) in files && parse(files[ProfileFilePath(name)]).None?
    ensures r.Success? ==> parse(files[ProfileFilePath(name)]) == Some(r.value)
  {
    var path := ProfileFilePath(name);
    if path !in files then Failure(NotFound(path))
    else match parse(files[path])
      case None => Failure(Malformed(path))
      case Some(c) => Success(c)
  }

  /** The child's environment: the inherited variables overridden by the secrets. */
  function ChildEnv(inherited: map<string, string>, secrets: map<string, string>): (env: map<string, string>)
    ensures env.Keys == inherited.Keys + secrets.Keys
    ensures forall k :: k in secrets ==> env[k] == secrets[k]
    ensures forall k :: k in inherited && k !in secrets ==> env[k] == inherited[k]
  {
    inherited + secrets
  }

  /** How the exit code is rendered in the rejection; a signal-terminated child has code null. */
  function CodeText(code: Option<int>): string
  {
    match code
    case None => "null"
    case Some(n) => Text.IntToDecimal(n)
  }

  /** The settlement of launch-agents: resolve iff the exit code is 0, otherwise reject naming the code. */
  function ExitOutcome(code: Option<int>): (r: Result<string, string>)
    ensures r.Success? <==> code == Some(0)
    ensures r.Success? ==> r.value == CompletedMessage
    ensures r.Failure? ==> r.error == ExitedPrefix + CodeText(code)
  {
    if code == Some(0) then Success(CompletedMessage) else Failure(ExitedPrefix + CodeText(code))
  }

  /** The rejection for a non-negative exit code names that code: its digits read back as the code. */
  lemma FailureCarriesExitCode(n: nat)
    requires n != 0
    ensures
      var e := ExitOutcome(Some(n)).error;
      && e[..|ExitedPrefix|] == ExitedPrefix
      && Text.AllDigits(e[|ExitedPrefix|..])
      && Text.DecimalValue(e[|ExitedPrefix|..]) == n
  {
    var e := ExitOutcome(Some(n)).error;
    assert e[|ExitedPrefix|..] == Text.IntToDecimal(n);
  }

  /** Saving secrets and reading them back returns them, when the codec round-trips. */
  lemma SecretsRoundTrip(files: map<string, string>, parse: string -> Option<map<string, string>>,
                         show: map<string, string> -> string, keys: map<string, string>)
    requires parse(show(keys)) == Some(keys)
    ensures ReadSecrets(files[ConfigFilePath := show(keys)], parse) == keys
  {
  }

  /** With a missing or corrupt secrets file the secrets are empty and the child inherits the environment unchanged. */
  lemma UnreadableSecretsLeaveEnvUnchanged(files: map<string, string>, parse: string -> Option<map<string, string>>,
                                           inherited: map<string, string>)
    requires ConfigFilePath !in files || parse(files[ConfigFilePath]).None?
    ensures ReadSecrets(files, parse) == map[]
    ensures ChildEnv(inherited, ReadSecrets(files, parse)) == inherited
  {
  }

  /** Saving a profile and loading it back returns it, when the codec round-trips. */
  lemma ProfileRoundTrip(files: map<string, string>, parse: string -> Option<AgentConfig>,
                         show: AgentConfig -> string, name: string, c: AgentConfig)
    requires parse(show(c)) == Some(c)
    ensures ReadProfile(files[ProfileFilePath(name) := show(c)], parse, name) == Success(c)
  {
  }

  /**
   * create-agent appends ".json" while load and save use the name verbatim: the
   * new file is listed as `name + ".json"`, it is what loading that entry reads,
   * and loading the bare name does not see it.
   */
  lemma {:induction false} CreatedProfileIsListedWithSuffix(files: map<string, string>, parse: string -> Option<AgentConfig>,
                                                           name: string, template: string)
    requires '/' !in name
    ensures
      var after := files[NewProfileFilePath(name) := template];
      && name + ".json" in AgentEntries(after)
      && ReadProfile(after, parse, name + ".json") ==
           (match parse(template)
            case None => Failure(Malformed(NewProfileFilePath(name)))
            case Some(c) => Success(c))
      && ReadProfile(after, parse, name) == ReadProfile(files, parse, name)
  {
    var after := files[NewProfileFilePath(name) := template];
    assert NewProfileFilePath(name) == ProfileFilePath(name + ".json");
    assert |NewProfileFilePath(name)| != |ProfileFilePath(name)|;
    assert '/' !in ".json";
    assert '/' !in name + ".json" by {
      forall i | 0 <= i < |name + ".json"| ensures (name + ".json")[i] != '/' {
        if i < |name| { assert (name + ".json")[i] == name[i]; }
      }
    }
    AgentEntriesMembership(after, name + ".json");
  }

  /** The main process's view of the file system, with the opaque JSON codecs it uses. */
  class Backend {
    var files: map<string, string>
    /** Paths whose writes fail (permissions, full disk). */
    const readOnly: set<string>
    const parseProfile: string -> Option<AgentConfig>
    const showProfile: AgentConfig -> string
    const parseSecrets: string -> Option<map<string, string>>
    const showSecrets: map<string, string> -> string

    constructor (files: map<string, string>, readOnly: set<string>,
                 parseProfile: string -> Option<AgentConfig>, showProfile: AgentConfig -> string,
                 parseSecrets: string -> Option<map<string, string>>, showSecrets: map<string, string> -> string)
      ensures this.files == files && this.readOnly == readOnly
      ensures this.parseProfile == parseProfile && this.showProfile == showProfile
      ensures this.parseSecrets == parseSecrets && this.showSecrets == showSecrets
    {
      this.files := files;
      this.readOnly := readOnly;
      this.parseProfile := parseProfile;
      this.showProfile := showProfile;
      this.parseSecrets := parseSecrets;
      this.showSecrets := showSecrets;
    }

    /** load-agents: every entry of the profiles directory once, in an order the file system chooses. */
    method LoadAgents() returns (names: seq<string>)
      ensures (set n | n in names) == AgentEntries(files)
      ensures forall i, j :: 0 <= i < j < |names| ==> names[i] != names[j]
    {
      var pending := AgentEntries(files);
      names := [];
      while pending != {}
        invariant (set n | n in names) + pending == AgentEntries(files)
        invariant forall i :: 0 <= i < |names| ==> names[i] !in pending
        invariant forall i, j :: 0 <= i < j < |names| ==> names[i] != names[j]
        decreases pending
      {
        var entry :| entry in pending;
        names := names + [entry];
        pending := pending - {entry};
      }
    }

    /** create-agent: copy the template verbatim to `<name>.json`, overwriting any file there. */
    method CreateAgent(name: string) returns (r: Result<bool, FsError>)
      modifies this
      ensures TemplatePath !in old(files) ==> r == Failure(NotFound(TemplatePath)) && files == old(files)
      ensures TemplatePath in old(files) && NewProfileFilePath(name) in readOnly ==>
        r == Failure(WriteFailed(NewProfileFilePath(name))) && files == old(files)
      ensures TemplatePath in old(files) && NewProfileFilePath(name) !in readOnly ==>
        r == Success(true) && files == old(files)[NewProfileFilePath(name) := old(files)[TemplatePath]]
    {
      if TemplatePath !in files {
        return Failure(NotFound(TemplatePath));
      }
      var templateData := files[TemplatePath];
      var path := NewProfileFilePath(name);
      if path in readOnly {
        return Failure(WriteFailed(path));
      }
      files := files[path := templateData];
      r := Success(true);
    }

    /** load-agent-config. */
    method LoadAgentConfig(name: string) returns (r: Result<AgentConfig, FsError>)
      ensures r == ReadProfile(files, parseProfile, name)
    {
      var path := ProfileFilePath(name);
      if path !in files {
        return Failure(NotFound(path));
      }
      var parsed := parseProfile(files[path]);
      if parsed.None? {
        return Failure(Malformed(path));
      }
      r := Success(parsed.value);
    }

    /** save-agent-config: overwrite the file named verbatim with the serialised profile. */
    method SaveAgentConfig(name: string, config: AgentConfig) returns (r: Result<bool, FsError>)
      modifies this
      ensures ProfileFilePath(name) in readOnly ==>
        r == Failure(WriteFailed(ProfileFilePath(name))) && files == old(files)
      ensures ProfileFilePath(name) !in readOnly ==>
        r == Success(true) && files == old(files)[ProfileFilePath(name) := showProfile(config)]
    {
      var path := ProfileFilePath(name);
      if path in readOnly {
        return Failure(WriteFailed(path));
      }
      files := files[path := showProfile(config)];
      r := Success(true);
    }

    /**
     * launch-agents, without the process itself: the environment the child is
     * spawned with and how the call settles for the child's exit code.
     */
    method LaunchAgents(command: string, inherited: map<string, string>, exitCode: Option<int>)
      returns (env: map<string, string>, outcome: Result<string, string>)
      ensures env == ChildEnv(inherited, ReadSecrets(files, parseSecrets))
      ensures outcome == ExitOutcome(exitCode)
    {
      var apiKeys: map<string, string> := map[];
      if ConfigFilePath in files {
        var parsed := parseSecrets(files[ConfigFilePath]);
        if parsed.Some? {
          apiKeys := parsed.value;
        }
      }
      env := inherited + apiKeys;
      if exitCode == Some(0) {
        outcome := Success(CompletedMessage);
      } else {
        outcome := Failure(ExitedPrefix + CodeText(exitCode));
      }
    }

    /** get-api-keys: the stored secrets, or the empty map on any read or parse failure. */
    method GetApiKeys() returns (keys: map<string, string>)
      ensures keys == ReadSecrets(files, parseSecrets)
      ensures ConfigFilePath !in files ==> keys == map[]
    {
      keys := map[];
      if ConfigFilePath in files {
        var parsed := parseSecrets(files[ConfigFilePath]);
        if parsed.Some? {
          keys := parsed.value;
        }
      }
    }

    /** save-api-keys: overwrite the secrets file; true iff the write succeeded. */
    method SaveApiKeys(keys: map<string, string>) returns (ok: bool)
      modifies this
      ensures ok <==> ConfigFilePath !in readOnly
      ensures ok ==> files == old(files)[ConfigFilePath := showSecrets(keys)]
      ensures !ok ==> files == old(files)
    {
      if ConfigFilePath in readOnly {
        return false;
      }
      files := files[ConfigFilePath := showSecrets(keys)];
      ok := true;
    }
  }
}
