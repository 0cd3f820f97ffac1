/**
 * The launcher view: which agents are disabled for lack of an API key, the
 * shell command built from the selected profiles, and what a launch writes
 * to the terminal log.
 */
module Launcher {
  import opened Wrappers
  import opened AgentProfile
  import MainProcess
  import AppStateContext
  import TerminalContext
  import Text

  /** An entry of the model catalog: the model's value and the secret it needs, if any. */
  datatype ModelOption = ModelOption(value: string, key: Option<string>)

  /** An option of the agent selector (its `label` is shown as `caption`). */
  datatype AgentOption = AgentOption(value: string, caption: string, isDisabled: bool)

  /** What the 'agent-output' listener receives; only strings are logged. */
  datatype Payload = StringPayload(text: string) | OtherPayload

  const CommandPrefix: string := "node main.js --profiles "
  const ProfilePrefix: string := "./profiles/"
  const LaunchingMessage: string := "Launching agents...\n"
  const LaunchErrorPrefix: string := "Error launching agents: "

  /** Index of the first catalog entry whose value is `model`, or the catalog's length if there is none. */
  function FirstMatch(catalog: seq<ModelOption>, model: string): (k: nat)
    ensures k <= |catalog|
    ensures k < |catalog| ==> catalog[k].value == model
    ensures forall j :: 0 <= j < k ==> catalog[j].value != model
  {
    if |catalog| == 0 then 0
    else if catalog[0].value == model then 0
    else 1 + FirstMatch(catalog[1..], model)
  }

  /** `modelOptionsData.find(option => option.value === model)`. */
  function FindModel(catalog: seq<ModelOption>, model: string): (r: Option<ModelOption>)
    ensures r.None? <==> forall i :: 0 <= i < |catalog| ==> catalog[i].value != model
    ensures r.Some? ==> r.value.value == model && r.value == catalog[FirstMatch(catalog, model)]
  {
    var k := FirstMatch(catalog, model);
    if k < |catalog| then Some(catalog[k]) else None
  }

  /** isAgentDisabled, given the model named in the agent's profile. */
  function IsAgentDisabled(model: string, catalog: seq<ModelOption>, availability: map<string, bool>): bool
  {
    match FindModel(catalog, model)
    case None => false
    case Some(option) =>
      option.key.Some? && option.key.value != "" &&
      !(option.key.value in availability && availability[option.key.value])
  }

  /**
   * An agent is disabled iff the first catalog entry for its model names a
   * non-empty key that is missing from the availability map or marked unavailable.
   */
  lemma DisabledIffKeyUnavailable(model: string, catalog: seq<ModelOption>, availability: map<string, bool>)
    ensures IsAgentDisabled(model, catalog, availability) <==>
      exists i :: 0 <= i < |catalog| && catalog[i].value == model
        && (forall j :: 0 <= j < i ==> catalog[j].value != model)
        && catalog[i].key.Some? && catalog[i].key.value != ""
        && (catalog[i].key.value !in availability || !availability[catalog[i].key.value])
  {
    var k := FirstMatch(catalog, model);
    if k < |catalog| {
      forall i | 0 <= i < |catalog| && catalog[i].value == model && (forall j :: 0 <= j < i ==> catalog[j].value != model)
        ensures i == k
      {
      }
    }
  }

  /**
   * Agents whose model is not in the catalog, or whose first catalog entry
   * names no key or the empty key, are never disabled, whatever the availability.
   */
  lemma NeverDisabledWithoutKey(model: string, catalog: seq<ModelOption>, availability: map<string, bool>)
    requires FindModel(catalog, model).None? || FindModel(catalog, model).value.key.None?
      || FindModel(catalog, model).value.key.value == ""
    ensures !IsAgentDisabled(model, catalog, availability)
  {
  }

  /** With availability computed from the secrets, an agent is disabled iff its model's key has no non-empty secret. */
  lemma DisabledFromSecrets(model: string, catalog: seq<ModelOption>, secrets: map<string, string>)
    ensures IsAgentDisabled(model, catalog, AppStateContext.Availability(secrets)) <==>
      FindModel(catalog, model).Some? && FindModel(catalog, model).value.key.Some? &&
      var key := FindModel(catalog, model).value.key.value;
      key != "" && (key !in secrets || secrets[key] == "")
  {
  }

  /** Whether an agent is disabled, judged from its profile on disk; a profile that cannot be loaded makes the check reject. */
  function DisabledOnDisk(files: map<string, string>, parse: string -> Option<AgentConfig>, catalog: seq<ModelOption>,
                          availability: map<string, bool>, agent: string): Result<bool, MainProcess.FsError>
  {
    match MainProcess.ReadProfile(files, parse, agent)
    case Failure(e) => Failure(e)
    case Success(c) => Success(IsAgentDisabled(c.model, catalog, availability))
  }

  /**
   * updateDisabledAgents' loop: one entry per listed agent; the first agent
   * whose profile cannot be loaded rejects the whole update.
   */
  method ComputeDisabledStatus(agentList: seq<string>, backend: MainProcess.Backend, catalog: seq<ModelOption>,
                               availability: map<string, bool>) returns (r: Result<map<string, bool>, MainProcess.FsError>)
    ensures r.Success? <==>
      forall i :: 0 <= i < |agentList| ==> DisabledOnDisk(backend.files, backend.parseProfile, catalog, availability, agentList[i]).Success?
    ensures r.Success? ==> r.value.Keys == set a | a in agentList
    ensures r.Success? ==> forall a :: a in r.value ==>
      Success(r.value[a]) == DisabledOnDisk(backend.files, backend.parseProfile, catalog, availability, a)
    ensures r.Failure? ==> exists i :: (0 <= i < |agentList|
      && (forall j :: 0 <= j < i ==> DisabledOnDisk(backend.files, backend.parseProfile, catalog, availability, agentList[j]).Success?)
      && DisabledOnDisk(backend.files, backend.parseProfile, catalog, availability, agentList[i]) == Failure(r.error))
  {
    var disabledStatus: map<string, bool> := map[];
    for i := 0 to |agentList|
      invariant forall j :: 0 <= j < i ==> DisabledOnDisk(backend.files, backend.parseProfile, catalog, availability, agentList[j]).Success?
      invariant disabledStatus.Keys == set j | 0 <= j < i :: agentList[j]
      invariant forall a :: a in disabledStatus ==>
        Success(disabledStatus[a]) == DisabledOnDisk(backend.files, backend.parseProfile, catalog, availability, a)
    {
      var agent := agentList[i];
      var loaded := backend.LoadAgentConfig(agent);
      if loaded.Failure? {
        assert DisabledOnDisk(backend.files, backend.parseProfile, catalog, availability, agentList[i]) == Failure(loaded.error);
        return Failure(loaded.error);
      }
      disabledStatus := disabledStatus[agent := IsAgentDisabled(loaded.value.model, catalog, availability)];
    }
    assert (set j | 0 <= j < |agentList| :: agentList[j]) == set a | a in agentList;
    r := Success(disabledStatus);
  }

  /** The profile argument for one agent. */
  function ProfileArg(agent: string): string
  {
    ProfilePrefix + agent
  }

  function ProfileArgs(selected: seq<string>): (args: seq<string>)
    ensures |args| == |selected|
    ensures forall i :: 0 <= i < |selected| ==> args[i] == ProfileArg(selected[i])
  {
    seq(|selected|, i requires 0 <= i < |selected| => ProfileArg(selected[i]))
  }

  /** The shell command handleLaunch sends: the entry point, then each selected profile in selection order. */
  function LaunchCommand(selected: seq<string>): string
  {
    CommandPrefix + Text.Join(ProfileArgs(selected), ' ')
  }

  /** The launch button is enabled only while some agent is selected. */
  predicate LaunchEnabled(selected: seq<string>)
  {
    |selected| > 0
  }

  lemma ProfileArgsHaveNoSpace(selected: seq<string>)
    requires forall i :: 0 <= i < |selected| ==> ' ' !in selected[i]
    ensures forall i :: 0 <= i < |selected| ==> ' ' !in ProfileArgs(selected)[i]
  {
    var args := ProfileArgs(selected);
    forall i | 0 <= i < |args| ensures ' ' !in args[i] {
      forall k | 0 <= k < |args[i]| ensures args[i][k] != ' ' {
        if k >= |ProfilePrefix| { assert args[i][k] == selected[i][k - |ProfilePrefix|]; }
      }
    }
  }

  /** The entry point and its flag, as the words in front of the profile paths. */
  const CommandWordsPrefix: seq<string> := ["node", "main.js", "--profiles"]

  /** With some profile selected, the command is the join of the fixed words and the profile paths. */
  lemma CommandIsJoin(selected: seq<string>)
    requires LaunchEnabled(selected)
    ensures LaunchCommand(selected) == Text.Join(CommandWordsPrefix + ProfileArgs(selected), ' ')
  {
    Text.JoinAppend(CommandWordsPrefix, ProfileArgs(selected), ' ');
    assert Text.Join(CommandWordsPrefix, ' ') + " " == CommandPrefix;
  }

  /**
   * For agent names without spaces, splitting the command at single spaces
   * gives the entry point, its flag, and one profile path per selected agent in order.
   */
  lemma {:induction false} CommandWords(selected: seq<string>)
    requires LaunchEnabled(selected)
    requires forall i :: 0 <= i < |selected| ==> ' ' !in selected[i]
    ensures Text.Split(LaunchCommand(selected), ' ') == CommandWordsPrefix + ProfileArgs(selected)
  {
    ProfileArgsHaveNoSpace(selected);
    CommandIsJoin(selected);
    var words := CommandWordsPrefix + ProfileArgs(selected);
    forall i | 0 <= i < |words| ensures ' ' !in words[i] {
      if i >= 3 { assert words[i] == ProfileArgs(selected)[i - 3]; }
    }
    Text.SplitJoin(words, ' ');
  }

  /** The guard matters: with nothing selected the command would name no profile at all. */
  lemma EmptySelectionNamesNoProfile(selected: seq<string>)
    ensures !LaunchEnabled(selected) <==> LaunchCommand(selected) == CommandPrefix
  {
    if LaunchEnabled(selected) {
      assert |LaunchCommand(selected)| > |CommandPrefix| by {
        assert |Text.Join(ProfileArgs(selected), ' ')| >= |ProfileArg(selected[0])|;
      }
    }
  }

  /** What handleLaunch logs after the forwarded output: nothing on success, the rejection otherwise. */
  function LaunchErrorLines(exitCode: Option<int>): (lines: seq<string>)
    ensures exitCode == Some(0) <==> lines == []
    ensures exitCode != Some(0) ==>
      lines == [LaunchErrorPrefix + MainProcess.ExitedPrefix + MainProcess.CodeText(exitCode) + "\n"]
  {
    match MainProcess.ExitOutcome(exitCode)
    case Success(_) => []
    case Failure(e) =>
      assert LaunchErrorPrefix + e == LaunchErrorPrefix + MainProcess.ExitedPrefix + MainProcess.CodeText(exitCode);
      [LaunchErrorPrefix + e + "\n"]
  }

  /** The 'agent-output' listener: a string payload is appended to the log verbatim; anything else is ignored. */
  method OnAgentOutput(term: TerminalContext.Terminal, payload: Payload)
    modifies term
    ensures payload.StringPayload? ==> term.output == old(term.output) + [payload.text]
    ensures payload.OtherPayload? ==> term.output == old(term.output)
  {
    if payload.StringPayload? {
      term.AddOutput(payload.text);
    }
  }

  /**
   * The selector's options: one per listed agent, in list order, labelled with
   * the agent's name; an agent with no entry in the disabled record is enabled.
   */
  function AgentOptions(agents: seq<string>, disabledAgents: map<string, bool>): (options: seq<AgentOption>)
    ensures |options| == |agents|
    ensures forall i :: 0 <= i < |agents| ==>
      && options[i].value == agents[i]
      && options[i].caption == agents[i]
      && (options[i].isDisabled <==> agents[i] in disabledAgents && disabledAgents[agents[i]])
  {
    seq(|agents|, i requires 0 <= i < |agents| =>
      AgentOption(agents[i], agents[i], agents[i] in disabledAgents && disabledAgents[agents[i]]))
  }

  /** The Launcher component's state. */
  class LauncherView {
    var agents: seq<string>
    var selectedAgents: seq<string>
    var disabledAgents: map<string, bool>

    constructor ()
      ensures agents == [] && selectedAgents == [] && disabledAgents == map[]
    {
      agents, selectedAgents, disabledAgents := [], [], map[];
    }

    /** handleAgentSelect: the selection is the options' values in the order given. */
    method HandleAgentSelect(options: seq<AgentOption>)
      modifies this
      ensures |selectedAgents| == |options|
      ensures forall i :: 0 <= i < |options| ==> selectedAgents[i] == options[i].value
      ensures agents == old(agents) && disabledAgents == old(disabledAgents)
    {
      selectedAgents := seq(|options|, i requires 0 <= i < |options| => options[i].value);
    }

    /** updateDisabledAgents: the whole record is replaced on success; a rejected check leaves it as it was. */
    method UpdateDisabledAgents(agentList: seq<string>, backend: MainProcess.Backend, catalog: seq<ModelOption>,
                                app: AppStateContext.AppState) returns (r: Result<map<string, bool>, MainProcess.FsError>)
      modifies this
      ensures r.Success? <==> forall i :: 0 <= i < |agentList| ==>
        DisabledOnDisk(backend.files, backend.parseProfile, catalog, app.apiKeyAvailability, agentList[i]).Success?
      ensures r.Success? ==> r.value.Keys == set a | a in agentList
      ensures r.Success? ==> forall a :: a in r.value ==>
        Success(r.value[a]) == DisabledOnDisk(backend.files, backend.parseProfile, catalog, app.apiKeyAvailability, a)
      ensures r.Failure? ==> exists i :: (0 <= i < |agentList|
        && (forall j :: 0 <= j < i ==>
              DisabledOnDisk(backend.files, backend.parseProfile, catalog, app.apiKeyAvailability, agentList[j]).Success?)
        && DisabledOnDisk(backend.files, backend.parseProfile, catalog, app.apiKeyAvailability, agentList[i]) == Failure(r.error))
      ensures r.Success? ==> disabledAgents == r.value
      ensures r.Failure? ==> disabledAgents == old(disabledAgents)
      ensures agents == old(agents) && selectedAgents == old(selectedAgents)
    {
      r := ComputeDisabledStatus(agentList, backend, catalog, app.apiKeyAvailability);
      if r.Success? {
        disabledAgents := r.value;
      }
    }

    /** loadAgents: list the profiles directory, then recompute which of them are disabled. */
    method LoadAgents(backend: MainProcess.Backend, catalog: seq<ModelOption>, app: AppStateContext.AppState)
      returns (r: Result<map<string, bool>, MainProcess.FsError>)
      modifies this
      ensures (set a | a in agents) == MainProcess.AgentEntries(backend.files)
      ensures forall i, j :: 0 <= i < j < |agents| ==> agents[i] != agents[j]
      ensures r.Success? <==> forall i :: 0 <= i < |agents| ==>
        DisabledOnDisk(backend.files, backend.parseProfile, catalog, app.apiKeyAvailability, agents[i]).Success?
      ensures r.Success? ==> disabledAgents == r.value && r.value.Keys == MainProcess.AgentEntries(backend.files)
      ensures r.Success? ==> forall a :: a in disabledAgents ==>
        Success(disabledAgents[a]) == DisabledOnDisk(backend.files, backend.parseProfile, catalog, app.apiKeyAvailability, a)
      ensures r.Failure? ==> exists i :: (0 <= i < |agents|
        && (forall j :: 0 <= j < i ==>
              DisabledOnDisk(backend.files, backend.parseProfile, catalog, app.apiKeyAvailability, agents[j]).Success?)
        && DisabledOnDisk(backend.files, backend.parseProfile, catalog, app.apiKeyAvailability, agents[i]) == Failure(r.error))
      ensures r.Failure? ==> disabledAgents == old(disabledAgents)
      ensures selectedAgents == old(selectedAgents)
    {
      var loadedAgents := backend.LoadAgents();
      agents := loadedAgents;
      r := UpdateDisabledAgents(loadedAgents, backend, catalog, app);
    }

    /**
     * handleLaunch: log the launch, send the command built from the selection,
     * let every chunk the child writes reach the log through the listener, and
     * log the rejection if the child does not exit with code 0.
     */
    method HandleLaunch(term: TerminalContext.Terminal, backend: MainProcess.Backend, inherited: map<string, string>,
                        emitted: seq<string>, exitCode: Option<int>) returns (command: string, env: map<string, string>)
      modifies term
      ensures command == LaunchCommand(selectedAgents)
      ensures env == MainProcess.ChildEnv(inherited, MainProcess.ReadSecrets(backend.files, backend.parseSecrets))
      ensures term.output == old(term.output) + [LaunchingMessage] + emitted + LaunchErrorLines(exitCode)
    {
      term.AddOutput(LaunchingMessage);
      command := LaunchCommand(selectedAgents);
      var outcome;
      env, outcome := backend.LaunchAgents(command, inherited, exitCode);
      for i := 0 to |emitted|
        invariant term.output == old(term.output) + [LaunchingMessage] + emitted[..i]
      {
        assert emitted[..i + 1] == emitted[..i] + [emitted[i]];
        OnAgentOutput(term, StringPayload(emitted[i]));
      }
      assert emitted[..|emitted|] == emitted;
      if outcome.Failure? {
        term.AddOutput(LaunchErrorPrefix + outcome.error + "\n");
      }
    }
  }
}
