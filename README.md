# mindcraft-gui launcher core, modelled in Dafny

mindcraft-gui is an Electron/React desktop launcher for "mindcraft" agents.
It lists agent profiles (one JSON file per agent), creates them from a
template, edits them, and stores API-key secrets in a JSON file. It also
launches the automation process with the secrets injected into its
environment, and streams the process's output into a terminal pane.

This project models the data transformations inside the event handlers and
IPC handlers. Each becomes a function on records, maps or sequences, or a
method on a small class that stands for a React state cell or for the main
process's file system.

| file | module | models |
|---|---|---|
| `wrappers.dfy` | `Wrappers` | `Option`/`Result` (absent values, rejected promises, thrown errors) |
| `text.dfy` | `Text` | `join`/`split` on one character, decimal rendering of numbers, first-occurrence `replace`, ASCII upper-casing |
| `agent_profile.dfy` | `AgentProfile` | `src/components/AgentConfig.tsx`: the profile record and its edit handlers |
| `app_state.dfy` | `AppStateContext` | `src/context/AppStateContext.tsx`: API-key availability |
| `terminal.dfy` | `TerminalContext` | `src/context/TerminalContext.tsx`: the output log |
| `configuration.dfy` | `Configuration` | `src/components/Configuration.tsx`: the five-key secrets form |
| `main_process.dfy` | `MainProcess` | `src/main/main.ts`: profile/secret files, child environment, exit-code rule |
| `launcher.dfy` | `Launcher` | `src/components/Launcher.tsx`: agent gating, command construction, launch logging |

Modelling choices:

- The file system is a map from path to contents, `Backend.files`. Writes
  fail for the paths in `Backend.readOnly`. JSON parsing and serialisation
  are opaque functions the backend is built with. The round-trip lemmas
  therefore assume the codec round-trips; they do not prove it.
- A process launch is reduced to its inputs. These are the inherited
  environment, the chunks the child writes (in the order they arrive) and
  the exit code, where `None` stands for the `null` code of a child killed
  by a signal.
- A React state cell becomes a class field. A handler that replaces the
  state becomes a method whose `ensures` gives the new state. A handler
  that only computes becomes a function, or a method without `modifies`
  when the source loops.
- Where the source throws, the model returns a `Failure` and leaves the
  state unchanged. Examples are `updateExample` on a missing example,
  `handleInputChange`/`toggleVisibility` on a missing index, and the
  `useAppState`/`useTerminal` hooks outside their providers.
- A profile's name is not always its file-name stem. `create-agent` writes
  `<name>.json`, while `load-agent-config` and `save-agent-config` use the
  name verbatim. So the names the UI loads and saves are directory entries
  that carry `.json` (src/main/main.ts:47, 55, 61); see
  `MainProcess.CreatedProfileIsListedWithSuffix`.
- Several specification functions have no row of their own. The rows of
  the lemmas and methods that characterise them cover them:
  - `Launcher.IsAgentDisabled` (src/components/Launcher.tsx:53-57): rows `DisabledIffKeyUnavailable`, `NeverDisabledWithoutKey` and `DisabledFromSecrets`.
  - `Launcher.DisabledOnDisk`: row `ComputeDisabledStatus`.
  - `Launcher.LaunchCommand` (lines 65-66): rows `CommandIsJoin`, `CommandWords` and `HandleLaunch`.
  - `Launcher.LaunchEnabled` (line 138): row `EmptySelectionNamesNoProfile`.
  - `AppStateContext.ReduceAvailability` and `AppStateContext.Availability` (src/context/AppStateContext.tsx:13-16): rows `ReduceAddsVisitedKeys` and `ReduceIsAvailability`.
  - `Configuration.KeysToSave` (src/components/Configuration.tsx:50-53): rows `KeysToSaveContents`, `SavedValuesOfDistinctNames` and `SaveThenLoadRestoresForm`.
  - `MainProcess.ReadSecrets` (src/main/main.ts:71-77, 106-113): rows `GetApiKeys`, `SecretsRoundTrip` and `UnreadableSecretsLeaveEnvUnchanged`.
  - `AgentProfile.ModesFromSelection`, `AllModesOn` and `SelectedModes` (src/components/AgentConfig.tsx:55-57, 64-66, 175): rows `HandleModesChange`, `HandleSelectAllModes`, `SelectionKeepsModeNames`, `SelectionShownBack`, `ReselectingIsIdentity` and `SelectAllModesProperties`.

## Model

| member | source | states |
|---|---|---|
| `AgentProfile.ConfigChange` | src/components/AgentConfig.tsx:48-50 | replaces exactly the named text field with the value; every other field, the modes and both example lists are unchanged; a null config stays null |
| `AgentProfile.HandleModesChange` | src/components/AgentConfig.tsx:52-59 | the forEach over the mode names yields the config with its flags set from the selection (`ModesFromSelection`); a null config stays null |
| `AgentProfile.SelectionKeepsModeNames` | src/components/AgentConfig.tsx:54-57 | the set of mode names is unchanged, so selected values that are not modes add no keys; a mode is true iff some selected value equals it |
| `AgentProfile.SelectionShownBack` | src/components/AgentConfig.tsx:170-175 | after a change, the options shown as selected are exactly the selected values that are existing modes |
| `AgentProfile.ReselectingIsIdentity` | src/components/AgentConfig.tsx:52-58 | submitting the currently shown selection again leaves the flags as they were |
| `AgentProfile.HandleSelectAllModes` | src/components/AgentConfig.tsx:61-68 | the forEach yields the config with every flag set to true (`AllModesOn`); a null config stays null |
| `AgentProfile.SelectAllModesProperties` | src/components/AgentConfig.tsx:61-68 | select-all keeps the key set, shows every mode as selected, is idempotent, and equals selecting every mode name |
| `AgentProfile.ModeLabel` | src/components/AgentConfig.tsx:170-173 | a mode's label has the mode's length, its first character upper-cased, and only the first '_' after that character turned into a space |
| `AgentProfile.ModeOptions` | src/components/AgentConfig.tsx:170-173 | there is one option per mode name and no other, and each option's label is the mode's `ModeLabel` |
| `AgentProfile.AddExample` | src/components/AgentConfig.tsx:81-88 | the chosen list grows by exactly one empty example at the end with its earlier examples intact; the other list and all other fields are unchanged; null stays null |
| `AgentProfile.SpliceOne` | src/components/AgentConfig.tsx:93-94 | `splice(index, 1)` on a copy removes the element at the splice start (negative indices count from the end) and keeps the others in order, or changes nothing when the start is past the end |
| `AgentProfile.RemoveExample` | src/components/AgentConfig.tsx:90-99 | an in-range index deletes exactly that example and keeps the others in order; a negative index down to -length removes that position counted from the end; a smaller index removes the first example (splice clamps its start to 0); an index past the end changes nothing; the other list is untouched |
| `AgentProfile.UpdateExample` | src/components/AgentConfig.tsx:101-113 | a missing example is an error (the source throws); otherwise only the named field of message (exampleIndex, messageIndex) is set, other messages and examples are unchanged, and index = length appends a message that carries only that field |
| `AgentProfile.AddMessageAppendsUserTurn` | src/components/AgentConfig.tsx:144 | "Add Message" appends a message whose role is 'user' and which has no content |
| `AppStateContext.ReduceAddsVisitedKeys` | src/context/AppStateContext.tsx:13-16 | the reduce sets every visited key to whether its value is non-empty and keeps the rest of the accumulator |
| `AppStateContext.ReduceIsAvailability` | src/context/AppStateContext.tsx:13-16 | whatever order Object.keys lists the keys in, the result has exactly the input's keys, and a key is available iff its value is a non-empty string |
| `AppStateContext.AppState.constructor` | src/context/AppStateContext.tsx:11 | availability starts as the empty map |
| `AppStateContext.AppState.UpdateApiKeyAvailability` | src/context/AppStateContext.tsx:12-18 | the whole availability map is replaced by the one computed from the keys; nothing is merged from the previous state |
| `AppStateContext.AppState.LoadInitialAvailability` | src/context/AppStateContext.tsx:20-23 | on mount, availability is computed from the secrets that get-api-keys returns |
| `AppStateContext.UseAppState` | src/context/AppStateContext.tsx:32-38 | outside the provider the hook fails with its error message; inside, it returns the context |
| `TerminalContext.Terminal.constructor` | src/context/TerminalContext.tsx:11 | the output log starts empty |
| `TerminalContext.Terminal.AddOutput` | src/context/TerminalContext.tsx:13-15 | exactly one entry, the chunk verbatim, is appended at the end; earlier entries are unchanged and in order |
| `TerminalContext.UseTerminal` | src/context/TerminalContext.tsx:24-30 | outside the provider the hook fails with its error message; inside, it returns the context |
| `Configuration.InitialApiKeys` | src/components/Configuration.tsx:15-21 | the form starts with the five key names in fixed order, each empty and hidden, with distinct names |
| `Configuration.ApiKeyForm.constructor` | src/components/Configuration.tsx:15-21 | the form state starts as the initial list and holds the five names |
| `Configuration.Merge` | src/components/Configuration.tsx:30-33 | loading keeps the names, order and hidden flags; each value is the loaded one, and a missing value becomes '' |
| `Configuration.ApiKeyForm.LoadApiKeys` | src/components/Configuration.tsx:28-35 | the form becomes the merge with the stored secrets, and availability is recomputed from those secrets |
| `Configuration.SetValue` | src/components/Configuration.tsx:37-41 | only the value at the index changes; names, hidden flags and other entries stay |
| `Configuration.ApiKeyForm.HandleInputChange` | src/components/Configuration.tsx:37-41 | an existing index sets that value; a missing index leaves the form unchanged (the source throws); the five names are kept |
| `Configuration.Toggle` | src/components/Configuration.tsx:43-47 | only `hidden` at the index flips; values and other entries stay |
| `Configuration.ToggleTwiceRestores` | src/components/Configuration.tsx:43-47 | toggling the same entry twice restores the form |
| `Configuration.ApiKeyForm.ToggleVisibility` | src/components/Configuration.tsx:43-47 | an existing index flips its mask; a missing index leaves the form unchanged |
| `Configuration.KeysToSaveContents` | src/components/Configuration.tsx:50-53 | the folded map has exactly the entries' names, and each name maps to the value of its last entry |
| `Configuration.SavedValuesOfDistinctNames` | src/components/Configuration.tsx:50-53 | with distinct names every entry's value, empty strings included, is saved under its name |
| `Configuration.SavedKeysAreTheFiveNames` | src/components/Configuration.tsx:15-53 | a form holding the five names saves a map whose keys are exactly those five, each mapped to its current value |
| `Configuration.SaveThenLoadRestoresForm` | src/components/Configuration.tsx:30-53 | loading the map that a save produced gives back the form, values and masks included |
| `Configuration.AvailabilityAfterSave` | src/components/Configuration.tsx:50-55 | after a save each of the five keys is available iff its field is non-empty |
| `Configuration.ApiKeyForm.SaveApiKeys` | src/components/Configuration.tsx:49-57 | the fold of the form is written to the secrets file when writable, and availability is recomputed from the saved map whether or not the write succeeded |
| `MainProcess.AgentEntriesMembership` | src/main/main.ts:40-43 | a name is listed iff a file of exactly that name lies directly in the profiles directory |
| `MainProcess.Backend.LoadAgents` | src/main/main.ts:40-43 | load-agents lists every directory entry exactly once, in an order of the file system's choosing (an empty directory gives the empty list) |
| `MainProcess.Backend.CreateAgent` | src/main/main.ts:45-52 | an unreadable template rejects; otherwise the template contents are written verbatim to profiles/<name>.json, overwriting any file there, and the result is true |
| `MainProcess.CreatedProfileIsListedWithSuffix` | src/main/main.ts:45-58 | a created profile is listed as `<name>.json`, loading that entry parses the template, and loading the bare name does not see the new file |
| `MainProcess.ReadProfile` | src/main/main.ts:54-58 | load-agent-config rejects with NotFound for a missing file and Malformed for unparsable contents (distinguishable); otherwise returns the parsed profile |
| `MainProcess.Backend.LoadAgentConfig` | src/main/main.ts:54-58 | the handler returns what `ReadProfile` gives for the current files |
| `MainProcess.Backend.SaveAgentConfig` | src/main/main.ts:60-64 | the serialised profile overwrites the file named verbatim and the result is true; a failing write rejects and changes nothing |
| `MainProcess.ProfileRoundTrip` | src/main/main.ts:54-64 | saving a profile and loading it by the same name returns it, given a codec that round-trips |
| `MainProcess.ChildEnv` | src/main/main.ts:80 | every secret name maps to its secret value, overriding an inherited variable; inherited variables not named in the secrets keep their values; nothing else is added |
| `MainProcess.UnreadableSecretsLeaveEnvUnchanged` | src/main/main.ts:71-80 | if the secrets file is missing or not valid JSON, the secrets are empty and the environment equals the inherited one |
| `MainProcess.ExitOutcome` | src/main/main.ts:96-102 | a launch resolves iff the exit code is 0; any other code, null included, rejects with "Process exited with code " and that code |
| `MainProcess.FailureCarriesExitCode` | src/main/main.ts:100 | the digits after the rejection's fixed prefix read back as the exit code |
| `MainProcess.Backend.LaunchAgents` | src/main/main.ts:66-104 | the child gets the inherited environment overridden by the secrets read from disk (empty on failure), and the call settles by the exit-code rule |
| `MainProcess.Backend.GetApiKeys` | src/main/main.ts:106-114 | get-api-keys returns the parsed secrets, or the empty map on any read or parse failure |
| `MainProcess.SecretsRoundTrip` | src/main/main.ts:106-124 | saving secrets and reading them back returns them, given a codec that round-trips |
| `MainProcess.Backend.SaveApiKeys` | src/main/main.ts:116-124 | save-api-keys returns true and overwrites the secrets file when the write succeeds, and false with the files unchanged when it fails |
| `Launcher.FirstMatch` | src/components/Launcher.tsx:55 | `find` stops at the first catalog entry whose value is the model, or finds none |
| `Launcher.FindModel` | src/components/Launcher.tsx:55 | the entry found is the first one for the model; there is none iff no entry names it |
| `Launcher.DisabledIffKeyUnavailable` | src/components/Launcher.tsx:53-57 | an agent is disabled iff the first catalog entry for its model has a non-empty key that is absent from the availability map or unavailable |
| `Launcher.NeverDisabledWithoutKey` | src/components/Launcher.tsx:55-56 | an agent whose model is not in the catalog, or whose first catalog entry has no key or the empty key, is never disabled, whatever the availability |
| `Launcher.DisabledFromSecrets` | src/components/Launcher.tsx:56 | with availability computed from the secrets, an agent is disabled iff its model's key has no non-empty secret |
| `Launcher.ComputeDisabledStatus` | src/components/Launcher.tsx:44-51 | the loop yields exactly one entry per listed agent, each its disabled status judged from its profile on disk; the first profile that cannot be loaded rejects the whole update |
| `Launcher.LauncherView.UpdateDisabledAgents` | src/components/Launcher.tsx:44-51 | the update succeeds iff every listed agent's profile loads; on success the disabled record is replaced by one entry per listed agent holding its status judged from disk; otherwise it rejects with the first failing agent's error and the record is left as it was |
| `Launcher.LauncherView.LoadAgents` | src/components/Launcher.tsx:33-42 | the agent list is the profiles directory's entries, each exactly once; the status update succeeds iff every entry's profile loads, and then each entry's disabled status is the one judged from its profile on disk; otherwise it rejects with the first failing entry's error and the record is left as it was |
| `Launcher.AgentOptions` | src/components/Launcher.tsx:103-107 | one option per listed agent in list order, valued and labelled with its name; it is disabled iff the record holds true for it, and an agent missing from the record is enabled |
| `Launcher.LauncherView.HandleAgentSelect` | src/components/Launcher.tsx:59-61 | the selection is the option values in the order given |
| `Launcher.ProfileArgs` | src/components/Launcher.tsx:65 | one "./profiles/<agent>" argument per selected agent, in selection order |
| `Launcher.CommandIsJoin` | src/components/Launcher.tsx:65-66 | the command is "node", "main.js", "--profiles" and the profile paths joined by single spaces |
| `Launcher.CommandWords` | src/components/Launcher.tsx:65-66 | for agent names without spaces, splitting the command at single spaces gives back the three fixed words and the profile paths in selection order |
| `Launcher.EmptySelectionNamesNoProfile` | src/components/Launcher.tsx:138 | the launch button is disabled exactly when the command would name no profile |
| `Launcher.LaunchErrorLines` | src/components/Launcher.tsx:70-71 | nothing more is logged when the exit code is 0; otherwise "Error launching agents: " and the rejection are logged |
| `Launcher.OnAgentOutput` | src/components/Launcher.tsx:79-85 | a string payload is appended to the log verbatim; anything else is ignored |
| `Launcher.LauncherView.HandleLaunch` | src/components/Launcher.tsx:63-73 | the command comes from the selection; the log gains "Launching agents...\n", then every chunk the child wrote, then the error line on failure; the child's environment follows the env rule |
| `Launcher.LauncherView.constructor` | src/components/Launcher.tsx:14-19 | the agent list, the selection and the disabled record start empty |

## Left out

- Process spawning, the stdout/stderr stream events, IPC transport and the `cwd` of the child (src/main/main.ts:85-95, src/main/preload.ts). These are operating-system and Electron plumbing. The model takes the chunks the child wrote, in arrival order, and its exit code as parameters.
- `ipcRenderer.invoke` wraps a rejection reason in an Error with a prefix of its own. The model logs the main process's rejection text unchanged.
- `JSON.parse`/`JSON.stringify` are opaque function parameters. Values in the secrets file that are not strings, and top-level JSON that is not an object, are not modelled.
- `path.join` normalisation (a name containing `..` or `/`) is not modelled. Paths are plain concatenations.
- A missing profiles directory is not modelled: load-agents never rejects, so the "Error loading agents" log line in Launcher.tsx never arises. Subdirectories of the profiles directory are not modelled.
- Window creation, the auto-updater, menus, devtools, source maps and the `ipc-example` channel (src/main/main.ts:34-38, 126-229) are Electron lifecycle code.
- All JSX rendering and widget libraries are out of scope, including Terminal.tsx, AgentSidebar.tsx, AgentManager.tsx, AppNavbar.tsx and App.tsx. So are `alert`/`console` calls, and the port and local/server toggle, which no logic reads.
- AgentConfig.tsx `loadAgentConfig` and `saveConfig` are the `Backend.LoadAgentConfig`/`Backend.SaveAgentConfig` calls plus alerts and logging. They have no member of their own.
- React scheduling is not modelled: async effect timing, batching and stale closures. For example, `loadApiKeys` merges into the list of its first render, and `isAgentDisabled` reads the availability of its render. The model takes the state current at the call.
- The model catalog (modelOptions.json) is not part of this model. It is a parameter: a sequence of entries, each with a value and an optional key.
- `Object.keys` order is not modelled. Modes and availability are unordered maps, so `ModeOptions` is a map from mode to label, not an ordered list.
- ConfigChange: covers the five text fields only. A cleared model selection, where `selected?.value` is undefined, is not modelled.
- UpdateExample: the source writes into the inner example array that the old and new configs share. The model is on values and does not capture that aliasing.
- UpdateExample: a message index below 0 or beyond the example's length gives `NotAnElementIndex`. In the source it creates a hole or a non-index property. The UI only passes 0..length.
- ModeLabel: upper-cases ASCII letters only. Full Unicode `toUpperCase` is not modelled.
- Terminal output is a sequence of Dafny strings. UTF-16 code units and byte decoding (`data.toString()`) are not modelled.
- HandleLaunch: the contract holds only under two assumptions. The first is that the Launcher stays mounted for the whole launch. The 'agent-output' listener exists only while the Launcher is on screen (src/components/Launcher.tsx:75-91), and the Launcher sits on the `/launcher` route (src/renderer/App.tsx:22). Chunks that arrive while another page is shown are never logged, though the later error line still is.
- HandleLaunch: the second assumption is that launches do not overlap. The launch button stays enabled during a launch (src/components/Launcher.tsx:138), so a second click starts a second child, and both children's chunks interleave in the one log.
- Shell parsing and quoting of the launch command are not modelled. The command runs through a shell (src/main/main.ts:85), and agent names are inserted unescaped. `create-agent` accepts any non-empty name (src/components/AgentSidebar.tsx:15-20). So `CommandWords` matches the shell's words only for names free of spaces, shell metacharacters, tabs, newlines and quotes; a name such as `x;y.json` would run a second program.
