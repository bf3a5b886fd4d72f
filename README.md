# aircmd core, modelled in Dafny

aircmd is a plugin-based CLI for building and running CI pipelines. This
project models the parts of it that are plain list, string and dictionary
logic, and proves properties of that model:

- **The CLI command and group models.**
  - `ParameterType`, and the parameter models with their defaults.
  - The four name and help validators, and `TYPE_MAPPING`.
  - The `ClickGroup` registry: `command`, the re-registration when a command is invoked, `add_group`, `click_group`.
  - The plugin group registries.
  - The translation of parameter, command and group models into click objects. There are three variants: `click_utils.py`, `utils.py`, and the older `models.py`.
  - Click's own objects are abstract values: `ParamSpec`, `CommandSpec`, and a `GroupSpec` that records its members in the order `add_command` received them.
  - In the source the validators' `field_validator` decorators are commented out, so building a model never runs them. Here they are functions that callers apply themselves.
- **Settings.**
  - The global settings record, and the repository name taken from the origin URL.
  - The filter pipeline of `load_settings`: None values dropped, then `include`, then `exclude`, then upper-cased keys, with secrets routed as secret variables.
  - The renaming of GitHub Actions inputs into `INPUT_*` variables, with the twelve `GITHUB_*` context entries written over them.
- **Container recipes** (`pipelines.py`, `environments.py`).
  - A container is the log of the operations recorded on it: execs, mounts, env vars, secrets, service bindings. Directories, caches, files and services are opaque handles.
  - `get_repo_dir` extends the caller's exclude list in place, then deduplicates and rewrites it for a sub-directory.
  - The settings' `DEFAULT_PYTHON_EXCLUDE` list is itself passed to `get_repo_dir` by `with_python_package` (when no patterns are given) and once per local requirement by `with_installed_python_package`. So that settings list grows by the default excluded files on every such call.
    - The model keeps this aliasing: the list is a `StrList` object and the methods carry `modifies` clauses.
    - `Pipelines.RepoDirGrown` proves the growth harmless for the directories selected.
  - Also modelled: `get_file_contents` error classification, the Gradle cache syncs, the Python, package, Poetry, docker host, Gradle, TypeScript-action and crane recipes, and the image id read from `docker load`.
- **Plugin manager and singleton cache.**
  - The installed-plugins file, discovery of plugins from entry points, and collection of their command groups.
  - The per-class instance cache, in both the `__new__` flavour (`singleton.py`) and the metaclass flavour (`models.py`).
- **Mock GitHub event payloads** (`githubactions.py`): `push`, `pull_request` and `workflow_dispatch` built from the settings as JSON values.

One module per source file. `Wrappers`, `Seqs`, `Text`, `Dicts` and
`Containers` hold the Python idioms the others share:
- `Dicts`: an insertion-ordered dict as a list of pairs.
- `Seqs`: `list(set(xs))` in first-occurrence order.
- `Text`: ASCII-only `str` methods, `split`/`join`, `os.path.dirname`.

Raised exceptions are the `Err` cases of a `Result`.

## Model

| member | source | states |
|---|---|---|
| ClickParams.FieldDefaults | aircmd/models/click_params.py:13-28 | `ClickParam` defaults: STRING, no default, not required, no help. An argument adds nothing, an option adds only an absent shortcut, and a flag is BOOL with default False. |
| ClickCommands.TypeMappingTotal | aircmd/models/click_commands.py:13-18 | `TYPE_MAPPING` has exactly the four type names as keys, so lookup by a `ParameterType` is total and injective. |
| ClickCommands.ValidateCommandName | aircmd/models/click_commands.py:25-28 | Accepts `v` unchanged iff it has at most 20 characters, all from [a-z0-9], with at least one letter. Otherwise ValueError. |
| ClickCommands.ValidateCommandHelp | aircmd/models/click_commands.py:31-36 | Accepts `v` unchanged iff it has 1 to 100 characters, starts upper-case and does not end in '.'. Otherwise ValueError. |
| ClickCommands.ValidateGroupName | aircmd/models/click_commands.py:57-68 | None passes and "" is refused. Any other name passes iff it passes as a command name. Errors are ValueError. |
| ClickCommands.ValidateGroupHelp | aircmd/models/click_commands.py:71-78 | Accepts exactly what the command help validator accepts, despite checking length before emptiness. |
| ClickCommands.ValidatorTestCases | aircmd/models/click_commands.py:25-78 | The accepted and refused names and helps of the model tests. |
| ClickCommands.CommandFrom | aircmd/models/click_commands.py:97 | `ClickCommand(**metadata.dict())` keeps name, help and the three parameter lists, and takes the given function. |
| ClickUtils.OptionSpecOf | aircmd/models/click_utils.py:17-24 | An option's names are `[name]` plus the shortcut only when it is set. Type is mapped; default, help and required are carried over. |
| ClickUtils.ParamSpecOf | aircmd/models/click_utils.py:10-32 | A spec exists iff the model is an argument, option or flag. Its first name is the model's name. An argument keeps name, mapped type and required. A flag is a bool, never-required option with `is_flag`. |
| ClickUtils.AddParameter | aircmd/models/click_utils.py:10-42 | Appends exactly one spec for a supported model and leaves earlier entries unchanged. Otherwise TypeError and nothing is appended. |
| ClickUtils.ParamSpecs | aircmd/models/click_utils.py:61-62 | Succeeds iff every model is supported, giving one spec per model, position by position. |
| ClickUtils.CommandSpecOf | aircmd/models/click_utils.py:56-65 | The command copies name, help and callback. It has one parameter per argument, option and flag, and fails with TypeError iff one of them is unsupported. |
| ClickUtils.CommandParamsOrdered | aircmd/models/click_utils.py:61 | The parameters are the arguments, then the options, then the flags, each block in model order. |
| ClickUtils.MapOption | aircmd/models/click_utils.py:45-54 | `map_pyd_opt_to_click_option` builds the option spec of the model. |
| ClickUtils.MapCommand | aircmd/models/click_utils.py:56-65 | The loop of `map_pyd_cmd_to_click_command` computes `CommandSpecOf`, stopping at the first unsupported model. |
| ClickUtils.CommandMembers | aircmd/models/click_utils.py:73-75 | One command member per stored command when mapping succeeds. The only error is TypeError. |
| ClickUtils.CommandMembersSpec | aircmd/models/click_utils.py:73-75 | Succeeds iff every stored command maps, and then the i-th member is the i-th command, mapped. |
| ClickUtils.GroupSpecOf | aircmd/models/click_utils.py:68-81 | The group is named like the model, has no parameters, and has one member per command and per subgroup. |
| ClickUtils.SubgroupMembers | aircmd/models/click_utils.py:77-79 | One member per subgroup when mapping succeeds. The only error is TypeError. |
| ClickUtils.SubgroupMembersSpec | aircmd/models/click_utils.py:77-79 | On success every subgroup maps, and the i-th subgroup member is the i-th subgroup, mapped recursively. |
| ClickUtils.SubgroupMembersAllMap | aircmd/models/click_utils.py:77-79 | Conversely, when every subgroup maps the subgroup loop succeeds. |
| ClickUtils.SubgroupMembersErr | aircmd/models/click_utils.py:77-79 | A failure among the first subgroups makes the whole loop fail with TypeError. |
| ClickUtils.GroupMembersOrdered | aircmd/models/click_utils.py:73-79 | All commands come first, in insertion order, then all subgroups, each mapped recursively. |
| ClickUtils.MapCommands | aircmd/models/click_utils.py:73-75 | The command loop computes `CommandMembers`. |
| ClickUtils.MapSubgroups | aircmd/models/click_utils.py:77-79 | The subgroup loop computes `SubgroupMembers`. |
| ClickUtils.MapGroup | aircmd/models/click_utils.py:68-81 | `map_pyd_grp_to_click_group` computes `GroupSpecOf`, and a TypeError at any depth propagates. |
| ClickUtils.DecoratorKwargs | aircmd/models/click_utils.py:93 | A decorator keyword reaches the instance iff the call did not pass that keyword, so call keywords win. |
| ClickUtils.LazyPass | aircmd/models/click_utils.py:89-97 | The instance gets the decorator's positional arguments and exactly the `DecoratorKwargs` keywords: a decorator keyword's value iff the call did not pass that name. The call's own arguments pass on unchanged. |
| ModelUtils.CommandsOnlySpec | aircmd/models/utils.py:59-69 | Succeeds iff every command maps. The group holds one command member per command and nothing else. |
| ModelUtils.MapGroup | aircmd/models/utils.py:59-69 | The loop of this `map_pyd_grp_to_click_group` computes `CommandsOnlySpec`. |
| ModelUtils.CommandsOnlyIsPrefix | aircmd/models/utils.py:59-69 | The commands-only group is exactly the commands part of the full mapping. It equals the full mapping when there are no subgroups. |
| ClickGroups.DropGlobalOption | aircmd/models/click_commands.py:107 | The function receives the call's keywords in order, except `global_option`. |
| ClickGroups.ClickGroupSpecOf | aircmd/models/click_commands.py:145-155 | `click_group`'s members are those of `map_pyd_grp_to_click_group`, followed by one parameter per group option, in order. |
| ClickGroups.OptionSpecs | aircmd/models/click_commands.py:152-154 | One click option per group option, in order. |
| ClickGroups.MapOptions | aircmd/models/click_commands.py:152-154 | The option loop computes `OptionSpecs`. |
| ClickGroups.ClickGroup.constructor | aircmd/models/click_commands.py:85-90 | An empty or missing name becomes None, and missing commands and subgroups start empty. |
| ClickGroups.ClickGroup.Command | aircmd/models/click_commands.py:92-104 | Registers the command at decoration time under its name, overwriting any namesake. Nothing else changes. |
| ClickGroups.ClickGroup.Invoke | aircmd/models/click_commands.py:105-117 | Re-registers the command with the decorated function and calls it with the keywords less `global_option`. |
| ClickGroups.ClickGroup.AddGroup | aircmd/models/click_commands.py:130-136 | ValueError iff the subgroup name is None, empty or taken, and then nothing changes. Otherwise exactly that one subgroup is appended under its name. |
| ClickGroups.ClickGroup.ClickGroupSpec | aircmd/models/click_commands.py:138-155 | Commands, then subgroups, then options, as `ClickGroupSpecOf` states. |
| ClickGroups.AddSubgroupScenario | aircmd/models/click_commands.py:130-136 | A fresh parent with one child added holds exactly that child under its name. |
| Plugins.RelativePath | aircmd/models/plugins.py:36-40 | "" when no base directory ends the cwd. Otherwise `cwd[len(base_dir):]` for a matching base directory. |
| Plugins.RelativePathFirstMatch | aircmd/models/plugins.py:37-39 | The first matching base directory decides, and the result has length \|cwd\| - \|base_dir\|. An empty base directory gives the whole cwd. |
| Plugins.RelativePathExample | aircmd/models/plugins.py:36-40 | The kept text is cwd cut at the base directory's length, not cwd without that suffix. |
| Plugins.Plugin.AddGroup | aircmd/models/plugins.py:19-23 | ValueError iff the group's name, None included, is already a key, and then nothing changes. Otherwise exactly that key is appended. `DeveloperPlugin.add_group` (lines 33-34) only delegates. |
| Plugins.Plugin.GetRelativePath | aircmd/models/plugins.py:36-40 | The early-return loop computes `RelativePath`. |
| LegacyModels.LegacySubgroupMembers | aircmd/models.py:121-123 | One member per subgroup when mapping succeeds. The only error is TypeError. |
| LegacyModels.LegacySubgroupMembersSpec | aircmd/models.py:121-124 | Succeeds iff every subgroup has a name (click's `add_command` raises TypeError for a nameless group) and its commands map. Then the i-th member is the i-th subgroup holding only its commands. |
| LegacyModels.LegacyGroupSpecOf | aircmd/models.py:116-124 | The group holds one member per command and per subgroup, and has no parameters. |
| LegacyModels.LegacyTreeIsShallow | aircmd/models.py:121-123 | Nested groups hold commands only, so sub-subgroups never reach click. |
| LegacyModels.ClickGroup.constructor | aircmd/models.py:68-74 | Name and help are stored as given, with empty registries. |
| LegacyModels.LegacyCommandFrom | aircmd/models.py:52-60 | `ClickCommand(**metadata.model_dump())`: the metadata's name and optional help, empty parameter lists, and the given function. |
| LegacyModels.ClickGroup.Command | aircmd/models.py:77-83 | Registers the command built from the older metadata under its name immediately, overwriting any namesake. |
| LegacyModels.ClickGroup.Invoke | aircmd/models.py:89-98 | The command is re-registered from the metadata alone, losing its function, and the decorated function is not called. |
| LegacyModels.ClickGroup.AddGroup | aircmd/models.py:110-113 | ValueError iff the name is already a key, with no empty-name check. Otherwise exactly that one subgroup is appended. |
| LegacyModels.ClickGroup.ClickGroupSpec | aircmd/models.py:115-124 | Commands first, then each subgroup mapped with its commands only. A nameless subgroup fails with TypeError. |
| LegacyModels.CommandNames | aircmd/models.py:241-245 | The command names defined by the plugin's groups. |
| LegacyModels.ValidateCommandsAsWritten | aircmd/models.py:241-245 | As written, `validate_commands` reads an attribute a plugin lacks and always fails with AttributeError. |
| LegacyModels.ValidateCommands | aircmd/models.py:241-245 | As intended: succeeds iff some group defines "deploy" and some group defines "up". Otherwise ValueError. |
| LegacyModels.ValidateCommandsDiscrepancy | aircmd/models.py:241-245 | A plugin that defines both commands passes the intended check and fails the written one. |
| LegacyModels.Plugin.AddGroup | aircmd/models.py:211-215 | ValueError iff the group name is already a key. Otherwise exactly that key is appended. |
| LegacyModels.Plugin.GetGroup | aircmd/models.py:217-219 | The group stored under the name, or None when there is none. |
| LegacyModels.NewApplicationPlugin | aircmd/models.py:237-239 | An application plugin is created iff the intended command check passes. |
| Singletons.InstanceCache.Construct | aircmd/models/singleton.py:7-10 | The first construction of a class stores a fresh instance, and later ones return that identical instance. Entries of other classes never change. `__init__` re-runs with each call's arguments. |
| Singletons.InstanceCache.MetaCall | aircmd/models.py:21-27 | The metaclass cache: the first call constructs and stores the instance, and later calls return it untouched. |
| Singletons.SameClassScenario | aircmd/models/singleton.py:7-10 | Two constructions of one class give the same object, and a second class gets its own. |
| Singletons.MetaCallScenario | aircmd/models.py:24-27 | Under the metaclass only the first call's arguments initialise the instance. |
| PluginManagers.Created | aircmd/plugin_manager.py:57-59 | A missing plugins file is created holding an empty list, and an existing file is left as it is. |
| PluginManagers.InstalledNames | aircmd/plugin_manager.py:60-64 | An empty file gives [], and otherwise the stored list. |
| PluginManagers.RemoveFirst | aircmd/plugin_manager.py:76 | `list.remove` shortens the list by one when the name is present and leaves it unchanged otherwise. |
| PluginManagers.RemoveFirstSpec | aircmd/plugin_manager.py:76 | Only the first occurrence is removed; the rest keeps its order. |
| PluginManagers.AfterAdd | aircmd/plugin_manager.py:66-71 | The name is appended at the end, duplicates allowed. |
| PluginManagers.AfterRemove | aircmd/plugin_manager.py:73-81 | The first occurrence is removed when listed. An unlisted name leaves the list unchanged. |
| PluginManagers.AddThenRemove | aircmd/plugin_manager.py:66-81 | Adding then removing a name restores the multiset of names, and restores the very list when the name was not listed. |
| PluginManagers.AppendThenRemove | aircmd/plugin_manager.py:66-81 | Appending an item and removing its first occurrence keeps the multiset, and the list itself when the item was absent. |
| PluginManagers.Discovered | aircmd/plugin_manager.py:29-49 | Only installed plugins are kept, each name once. |
| PluginManagers.DiscoveredGet | aircmd/plugin_manager.py:32-49 | A plugin is loaded iff it is installed and one of its entry points loads. |
| PluginManagers.DiscoveredLastWins | aircmd/plugin_manager.py:32-49 | The stored plugin is the one loaded by the last entry point of that name that loads. |
| PluginManagers.CommandGroups | aircmd/plugin_manager.py:83-97 | The groups are exactly those of the loaded plugin objects. A plugin without groups contributes none. |
| PluginManagers.PluginManager.constructor | aircmd/plugin_manager.py:24-26 | Creating a manager runs discovery. |
| PluginManagers.PluginManager.GetInstalledPlugins | aircmd/plugin_manager.py:54-64 | The file is created if missing, and the installed names are returned. |
| PluginManagers.PluginManager.Discover | aircmd/plugin_manager.py:28-49 | Clears the map and refills it from the entry points in order. |
| PluginManagers.PluginManager.AddInstalledPlugin | aircmd/plugin_manager.py:66-71 | The file becomes `AfterAdd`. |
| PluginManagers.PluginManager.RemoveInstalledPlugin | aircmd/plugin_manager.py:73-81 | The file becomes `AfterRemove`. |
| PluginManagers.PluginManager.GetCommandGroups | aircmd/plugin_manager.py:83-97 | The nested loop computes `CommandGroups` in plugin order. |
| Settings.RepoNameAsWritten | aircmd/models/settings.py:41-45 | `get_git_repo_name` as written: the last '/'-separated part of the origin URL with every ".git" removed. It contains no '/'. |
| Settings.RepoName | aircmd/models/settings.py:41-45 | `get_git_repo_name` as evidently intended: the last '/'-separated part of the origin URL, without one trailing ".git". It contains no '/'. |
| Settings.RepoNameAgrees | aircmd/models/settings.py:44 | When the last segment is a name without ".git" followed by one ".git", the written and the intended reading both give that name. |
| Settings.RepoNameDiscrepancy | aircmd/models/settings.py:44 | For ".../web.gitops.git" the written code gives "webops", while the intended name is "web.gitops". |
| Settings.NewGlobalSettings | aircmd/models/settings.py:48-112 | The git facts, the declared defaults and a fresh Python-exclude list. The repository is the intended name `RepoName` (see Findings). |
| Settings.DropNone | aircmd/models/settings.py:133 | A key survives iff its value is not None, with its value. The surviving keys keep their order. |
| Settings.IncludeOnly | aircmd/models/settings.py:135-136 | A key survives iff it is listed and present, and keeps its value. |
| Settings.IncludeOnlyOrder | aircmd/models/settings.py:136 | The surviving keys come in include-list order, each once, and unknown keys are ignored. |
| Settings.Filtered | aircmd/models/settings.py:133-139 | A key is loaded iff it is not None, is included (when a list is given) and is not excluded. Its value is unchanged. |
| Settings.EnvOp | aircmd/models/settings.py:141-147 | The variable is named by the upper-cased key. It is a secret variable iff the value is a secret, and otherwise holds `str(value)`. |
| Settings.EnvOps | aircmd/models/settings.py:141-147 | One operation per setting, in order. |
| Settings.LoadedSettings | aircmd/models/settings.py:131-147 | A setting reaches the container exactly once under these conditions, and a secret only as a secret variable. |
| Settings.LoadEnvs | aircmd/models/settings.py:131-151 | `load_envs` appends `EnvOps` of the filtered settings. |
| Settings.LoadAll | aircmd/models/settings.py:141-149 | The loop appends one operation per setting. |
| Settings.InputKey | aircmd/models/settings.py:191 | The key is "INPUT_" followed by the input, character by character, with '-' turned into '_' and lower-case letters upper-cased. So it has no '-' and no lower-case letter. |
| Settings.InputKeyCollapse | aircmd/models/settings.py:158-166 | Two inputs get the same key iff they have the same length and agree at every position up to case and '-' versus '_'. |
| Settings.InputKeyExamples | aircmd/models/settings.py:165-166 | 'project-token' becomes 'INPUT_PROJECT_TOKEN', as does 'Project_Token'. |
| Settings.TransformInputs | aircmd/models/settings.py:191 | Every input's renamed key is present, and there are at most as many keys as inputs. |
| Settings.TransformInputsKeys | aircmd/models/settings.py:191 | Each renamed key is held once, carries the prefix, and comes from an input. |
| Settings.TransformInputsLast | aircmd/models/settings.py:191 | Inputs that collapse to one key leave the value of the last of them. |
| Settings.GithubContext | aircmd/models/settings.py:197-210 | Twelve distinct `GITHUB_*` entries. |
| Settings.InputSettingsData | aircmd/models/settings.py:191-210 | Every context key holds its context value, and there are at most twelve keys more than inputs. |
| Settings.InputSettingsNoCollision | aircmd/models/settings.py:191-210 | The context never overwrites an `INPUT_*` key, and each context key holds its context value. |
| Settings.InputSettingsKeys | aircmd/models/settings.py:191-210 | Every field is a renamed input, starting with "INPUT_", or one of the twelve context keys. |
| Settings.NoEventPathField | aircmd/models/settings.py:191-210 | No field is named "GITHUB_EVENT_PATH", whatever the inputs. |
| Settings.InputSettings | aircmd/models/settings.py:187-211 | `__init__` computes the renamed inputs with the context written over them. |
| Seqs.Dedup | aircmd/actions/pipelines.py:31 | `list(set(xs))`: the same elements, each once. |
| Dicts.MapValuesSpec | aircmd/models/click_utils.py:73-75 | Mapping the values in insertion order succeeds iff every value maps, and then gives the results position by position. |
| Dicts.Update | aircmd/models/settings.py:197-210 | `dict.update` pair by pair: each pair is written over the dict in order. |
| Text.LastSegmentSuffix | aircmd/models/settings.py:44 | `split(sep)[-1]` is the longest suffix without `sep`. |
| Text.SplitJoin | aircmd/actions/environments.py:150 | Joining the parts of `split("\n")` with "\n" gives back the text. |
| Pipelines.EffectiveExcludes | aircmd/actions/pipelines.py:27-31 | Without a list the defaults exactly. Otherwise each caller pattern and default exactly once. |
| Pipelines.TrailingSlash | aircmd/actions/pipelines.py:33 | Adds '/' only when missing. |
| Pipelines.RelativeExcludes | aircmd/actions/pipelines.py:34 | A pattern is kept iff it mentions the sub-directory, with every occurrence of it deleted. |
| Pipelines.RelativeExcludeStrip | aircmd/actions/pipelines.py:34 | `sub + rest` becomes `rest`. |
| Pipelines.RepoDir | aircmd/actions/pipelines.py:27-35 | Includes are passed through. With "." the effective patterns are unchanged. Otherwise the path is the sub-directory with one trailing '/' (`TrailingSlash`). |
| Pipelines.RepoDirDefaults | aircmd/actions/pipelines.py:27-28 | Without a list the whole repository is taken with the default excludes exactly. |
| Pipelines.RepoDirSubdir | aircmd/actions/pipelines.py:32-34 | Below "." a pattern is excluded iff it is a caller or default pattern that mentions the path, rewritten. |
| Pipelines.RepoDirGrown | aircmd/actions/pipelines.py:29-31 | A caller list grown by copies of the defaults selects the same directory. |
| Pipelines.GetRepoDir | aircmd/actions/pipelines.py:8-35 | The caller's list is extended in place with the defaults, and the result is `RepoDir` of the list as it was. |
| Pipelines.GetFileContents | aircmd/actions/pipelines.py:47-54 | Contents on success. None iff the error mentions "no such file or directory". Any other error propagates. |
| Pipelines.MissingFile | aircmd/actions/pipelines.py:50 | Any error ending in the missing-file text means no file. |
| Pipelines.SyncFromCache | aircmd/actions/pipelines.py:56-61 | Appends exactly `ls -la cache`, then `rsync -az cache home`. |
| Pipelines.SyncToCache | aircmd/actions/pipelines.py:63-67 | Appends exactly `rsync -az --delete home cache`. |
| Pipelines.SyncDirections | aircmd/actions/pipelines.py:56-67 | The two rsyncs copy in opposite directions. |
| Environments.PythonBase | aircmd/actions/environments.py:51-76 | ValueError iff the image does not start with "python:3". Otherwise the image, the pip cache and the pip upgrade. |
| Environments.PythonBaseExamples | aircmd/actions/environments.py:65-66 | Which image names are accepted and which refused. |
| Environments.PackageExcludes | aircmd/actions/environments.py:114-117 | Defaults followed by caller patterns when a non-empty list is given, and otherwise the defaults list itself. |
| Environments.PackageDirectoryExcludes | aircmd/actions/environments.py:114-118 | Under the package path, exactly the Python defaults, caller patterns and default files that mention it are excluded. |
| Environments.PackageMounted | aircmd/actions/environments.py:119-121 | The directory is mounted at "/" + path, which becomes the workdir. |
| Environments.WithPythonPackage | aircmd/actions/environments.py:95-122 | The package is mounted, and without caller patterns the settings' list grows by the default excluded files. |
| Environments.ExtrasInstall | aircmd/actions/environments.py:160-163 | The last install argument becomes ".[" + comma-join(groups) + "]". |
| Environments.ExtrasExample | aircmd/actions/environments.py:162 | `[dev, tests]` gives ".[dev,tests]". |
| Environments.LocalCount | aircmd/actions/environments.py:150-151 | At most one local requirement per line. |
| Environments.LocalMounts | aircmd/actions/environments.py:150-155 | One mount per local requirement. |
| Environments.LocalMountsOnly | aircmd/actions/environments.py:150-155 | Every local mount is a directory mount, so the mounts run no command. |
| Environments.LocalMountsMembers | aircmd/actions/environments.py:150-155 | A mount is made iff some line starts with "-e ." and names that path. |
| Environments.InstalledPythonPackage | aircmd/actions/environments.py:125-165 | Fails iff reading requirements.txt fails for a reason other than a missing file. |
| Environments.InstalledExecs | aircmd/actions/environments.py:149-163 | Commands in order: the requirements install only when requirements.txt has content, the package install always, the extras install only for a non-empty list. |
| Environments.MountLocalRequirement | aircmd/actions/environments.py:151-155 | One local mount, and the settings' list grows once more. |
| Environments.MountLocalRequirements | aircmd/actions/environments.py:150-155 | The loop mounts `LocalMounts` and grows the list once per local line. |
| Environments.InstallRequirements | aircmd/actions/environments.py:149-156 | The local mounts, then the requirements install. The settings' list grows once per local requirement line. |
| Environments.MountStep | aircmd/actions/environments.py:150-155 | One line of requirements.txt: a mount iff it is a local requirement, and then the settings' list grows once. |
| Environments.MountLine | aircmd/actions/environments.py:150-155 | After line `i` the mounts and the list's growth match the local requirements among the first `i + 1` lines. |
| Environments.RequirementsStep | aircmd/actions/environments.py:149-156 | Nothing is added when requirements.txt is missing or empty. Otherwise its local mounts and the requirements install. |
| Environments.InstallPackage | aircmd/actions/environments.py:158-163 | The package install, then the extras install only for a non-empty list of groups. |
| Environments.InstallRequirementsAndPackage | aircmd/actions/environments.py:149-163 | Reading requirements.txt, mounting and installing it, then the package. The settings' list grows once per local requirement read, and not at all when reading fails. |
| Environments.WithInstalledPythonPackage | aircmd/actions/environments.py:125-165 | Computes `InstalledPythonPackage` on the list as it was on entry. The list grows once without caller patterns and once per local requirement; on failure only the first growth happens. |
| Environments.AlpinePackages | aircmd/actions/environments.py:168-178 | Appends `apk add` + packages. |
| Environments.DebianPackages | aircmd/actions/environments.py:181-192 | Appends `apt-get update`, then `apt-get install -y` + packages. |
| Environments.PipPackages | aircmd/actions/environments.py:195-205 | Appends `pip install` + packages. |
| Environments.PackageCommands | aircmd/actions/environments.py:168-205 | The helpers add only these commands, packages last and in order. |
| Environments.Poetry | aircmd/actions/environments.py:464-479 | Fails iff the image is not Python 3. Starts from the image and ends with the Poetry cache. |
| Environments.PoetryCommands | aircmd/actions/environments.py:472-477 | Commands: pip upgrade, apt-get update, install git, pip install poetry. |
| Environments.BoundDockerHost | aircmd/actions/environments.py:241-261 | Fails iff no dockerd service. Otherwise DOCKER_HOST, the service binding and the shared /tmp cache. |
| Environments.AuthenticatedDockerHost | aircmd/actions/environments.py:263-290 | Fails iff no dockerd (AssertionError) or a Docker Hub credential is unset (AttributeError). Otherwise six operations are appended. |
| Environments.AuthenticatedExtendsBound | aircmd/actions/environments.py:283-288 | The plain binding followed by the two credentials as secret variables. |
| Environments.GradleSources | aircmd/actions/environments.py:391-398 | The base list, then the extras (duplicates kept), each prefixed with `directory + "/"` iff a directory is given. The length is preserved. |
| Environments.GradleIncludeDuplicate | aircmd/actions/environments.py:369-387 | "build.gradle" is included twice. |
| Environments.GradlePrepared | aircmd/actions/environments.py:400-410 | Ten operations before the docker host: the JDK image first, and the repository mounted at /airbyte with the computed include and exclude lists. |
| Environments.Gradle | aircmd/actions/environments.py:347-420 | The intended recipe, given the Gradle home and cache path: starts from the JDK image and mounts the repository with the computed include/exclude lists. Without the docker host it always succeeds; with it, it fails iff the binding fails. |
| Environments.GradleAsWritten | aircmd/actions/environments.py:402-408 | As written, `with_gradle` always fails with AttributeError, since it reads an undeclared settings field before anything else can fail. |
| Environments.GradleDiscrepancy | aircmd/actions/environments.py:347-420 | The intended recipe builds without the docker host, while the function as written fails. |
| Environments.GradleExcludes | aircmd/actions/environments.py:389-411 | The mounted repository excludes exactly the Gradle patterns and the default files, each once. |
| Environments.ImageId | aircmd/actions/environments.py:438-439 | An id iff the output mentions "sha256:", and it contains no newline. |
| Environments.ImageIdRoundTrip | aircmd/actions/environments.py:438-439 | The id of an untagged image comes back out of the "Loaded image ID" line. |
| Environments.TagCommand | aircmd/actions/environments.py:438-440 | `docker tag <id> <tag>` iff the output mentions "sha256:". |
| Environments.GhaInputs | aircmd/actions/environments.py:37 | Entry by entry, the `__init__` data (renamed inputs, then the context): the same key, and its value rendered by `str()` as a plain value. |
| Environments.GhaCommands | aircmd/actions/environments.py:38-45 | Eight commands. The archive downloaded is the one unpacked, and node runs last. |
| Environments.TypescriptGha | aircmd/actions/environments.py:28-47 | The intended recipe, given the event file path: Node image, the two directories, the loaded inputs, then the eight commands. |
| Environments.TypescriptGhaAsWritten | aircmd/actions/environments.py:28-47 | As written, the recipe succeeds iff the input settings have a `GITHUB_EVENT_PATH` field, and fails with AttributeError otherwise. |
| Environments.TypescriptGhaDiscrepancy | aircmd/actions/environments.py:36 | The function as written always fails with AttributeError, because no input settings have that field. |
| Environments.TypescriptGhaRuns | aircmd/actions/environments.py:39-45 | The action runs last, after unpacking the very file it downloaded. |
| Environments.Crane | aircmd/actions/environments.py:500-529 | Starts from the crane image. The login command runs iff both credentials are set, and is the only command. |
| GithubActions.RepositoryFields | aircmd/actions/githubactions.py:14-21 | `full_name`, `name` (after the last '/'), `owner.login` and `html_url` (server + "/" + repository). |
| GithubActions.RepositoryName | aircmd/actions/githubactions.py:16 | The name ends the repository path, holds no '/', and is the whole path when there is no '/'. |
| GithubActions.RepositoryNameExample | aircmd/actions/githubactions.py:16 | "airbytehq/aircmd" is named "aircmd". |
| GithubActions.SharedBlocks | aircmd/actions/githubactions.py:14-25 | All three payloads carry the same repository and sender blocks. |
| GithubActions.PushRefs | aircmd/actions/githubactions.py:11-38 | The ref is the branch. The head commit id is the revision and its author is the latest commit's author. The pusher is the sender. |
| GithubActions.PullRequestNumbers | aircmd/actions/githubactions.py:40-47 | The action, number 1 at both levels, and an html_url under the repository that ends "/pull/0". |
| GithubActions.PullRequestDefaultAction | aircmd/actions/githubactions.py:40 | Without an action the payload says "opened". |
| GithubActions.PullRequestHead | aircmd/actions/githubactions.py:48-54 | The head is the current branch at the current revision, in the same repository. |
| GithubActions.PullRequestPayload | aircmd/actions/githubactions.py:40-68 | Every object in the payload holds each key once. Its fields are stated by `PullRequestNumbers`, `PullRequestHead` and `SharedBlocks`. |
| GithubActions.WorkflowDispatchPayload | aircmd/actions/githubactions.py:69-94 | Every object in the payload holds each key once. Its fields are stated by `WorkflowDispatchFields` and `SharedBlocks`. |
| GithubActions.WorkflowDispatchFields | aircmd/actions/githubactions.py:69-94 | Ref, workflow id 0, state active, empty inputs. |
| GithubActions.EventShapes | aircmd/actions/githubactions.py:11-94 | Only a pull request has an action, and only push and dispatch have a top-level ref. |
| GithubActions.PushPayload | aircmd/actions/githubactions.py:11-38 | Every object in the payload holds each key once. |

## Left out

- Pipeline execution, dagger and click themselves: containers, directories and click objects are recorded values. No container runs and no file is read.
- I/O is replaced by parameters: the git checkout (`GitFacts`), environment and `.env` overrides of the settings, the cwd in `get_relative_path`, entry points and what loading them gives, the plugins JSON file (a field), the result of reading requirements.txt (`FileRead`), and the output of `docker load`.
- `PYTHON_IMAGE` and `CRANE_DEBUG_IMAGE` come from aircmd/actions/constants.py, which is not part of this model. They are parameters of `Poetry` and `Crane`.
- Environments.Gradle: models the intended recipe, with the Gradle home and cache mount paths as parameters. As written the source always raises AttributeError (see Findings and `GradleAsWritten`). The contract states the first operation, the mounted directory and the failure cases, not every operation.
- Environments.TypescriptGha: models the intended recipe, with the event file path and the loaded input settings as parameters. As written the source always raises AttributeError (see Findings and `TypescriptGhaAsWritten`).
- ClickUtils.GroupSpecOf: the group spec lists one member per `add_command` call, in call order. Click keeps its commands in a dictionary keyed by name, so a subgroup named like a command, or a second member of the same name, replaces the earlier one there. A subgroup without a name, which `add_group` never stores, would make click raise TypeError; the model maps it like any other.
- LegacyModels.LegacyGroupSpecOf: the same holds for name collisions. A nameless subgroup is modelled: it fails with TypeError.
- Environments.AuthenticatedDockerHost: the login command after the two secrets is not stated in the contract.
- Environments.Poetry: the contract states the first and last operations. `PoetryCommands` states the commands.
- Environments.InstalledPythonPackage: its own contract states the error case only. The commands and mounts are stated by `InstalledExecs` and `LocalMountsMembers`.
- Pipelines.EffectiveExcludes: `list(set(...))` has no specified order. The model uses first-occurrence order, and the contract states only membership and distinctness.
- Cache sharing modes, `insecure_root_capabilities` and `skip_entrypoint` are not recorded on operations.
- Recipes without list or string logic are left out: `with_testing_dependencies`, `with_global_dockerd_service`, `with_docker_cli`, `with_pnpm`. `with_node` appears only as the first operation of `TypescriptGha`.
- `with_dockerd_service` is left out because its volume name goes through `slugify`, which is not part of this model.
- `with_poetry_module` is left out because its cache buster is a random UUID.
- Of `load_image_to_docker_host` only the image id and the tag command are modelled. The random tar name, the mount, the `image rm` attempt, the printing and the second load are not.
- `make_pass_decorator` (both copies) is left out because it works by signature and annotation reflection.
- The staticmethod `ClickGroup.group` is not modelled. So are the cached `click_command` property and pydantic's validation of models, including the `ValidationError` to `ClickException` path.
- Keyword arguments passed at invocation that name fields of the command model are not merged into the re-registered command. The command is rebuilt from its metadata.
- Subgroups and plugin groups are stored by value. Python stores references, so changes made to a child group after it was added are not seen through the parent here.
- `GlobalContext`, `PipelineContext`, `Pipeline` and the abstract plugin subclasses in models.py are not modelled. The latter only restate `Plugin`.
- Plugin manager: messages printed on failure, the `DEBUG` traceback branch, `PLUGIN_DIR` creation and JSON parse errors are not modelled. An entry point that is not an `EntryPoint` is not modelled either.
- LegacyModels.NewApplicationPlugin: the plugin is built on the intended `ValidateCommands`, not on the check as written, which raises AttributeError on every construction (see Findings and `ValidateCommandsDiscrepancy`).
- Settings.NewGlobalSettings: `GIT_REPOSITORY` is built with the intended `RepoName`, not with the written `get_git_repo_name` (`RepoNameAsWritten`). The two differ only for a repository name that contains ".git" before its end (see Findings and `RepoNameAgrees`). The difference carries into `GITHUB_REPOSITORY` and the payloads' repository block.
- Environments.GhaInputs: the keys are in the order `__init__` assembles them. The pydantic `.dict()` lists the declared `GITHUB_*` fields first, and that order is not modelled.
- Settings fields that no modelled code reads are omitted from `GlobalSettings`.
- `str()` of setting values other than strings, numbers and secrets is taken as given text.
- `SecretBytes` is treated like `SecretStr`.
- Text predicates (`islower`, `isalnum`, `isupper`, `upper`) are ASCII only.
- JSON payload values are limited to strings, integers and objects, and object keys keep the order they are written in.

## Findings

| source | as written | input that shows it | evidently intended | confidence | as-written member | corrected member |
|---|---|---|---|---|---|---|
| aircmd/models.py:241-245 | `validate_commands` reads `self.commands`, which `Plugin` does not declare, so every `ApplicationPlugin` construction fails with AttributeError | `ApplicationPlugin(name="app")`, which passes field validation (its groups default to `{}`) and then fails in `validate_commands` | check that the plugin's groups define "deploy" and "up", and raise ValueError for the first one missing | medium, not executed | LegacyModels.ValidateCommandsAsWritten, LegacyModels.ValidateCommandsDiscrepancy | LegacyModels.ValidateCommands |
| aircmd/actions/environments.py:402-408 | `with_gradle` reads `settings.GRADLE_HOMEDIR_PATH` (and later `GRADLE_CACHE_VOLUME_PATH`), neither of which `GlobalSettings` declares, so every call raises AttributeError | any call, e.g. with `bind_to_docker_host=False` | read the Gradle home and cache mount paths from declared settings and build the container | medium, not executed | Environments.GradleAsWritten, Environments.GradleDiscrepancy | Environments.Gradle |
| aircmd/actions/environments.py:36 | `with_typescript_gha` reads `inputs.GITHUB_EVENT_PATH`; inputs are renamed to `INPUT_*` and the context sets only twelve other `GITHUB_*` keys, so the attribute never exists and every call raises AttributeError | inputs `{"GITHUB_EVENT_PATH": "/tmp/event.json"}`, which become `INPUT_GITHUB_EVENT_PATH` | take the event file path from the runner's `GITHUB_EVENT_PATH` and mount its directory | medium, not executed | Environments.TypescriptGhaAsWritten, Environments.TypescriptGhaDiscrepancy | Environments.TypescriptGha |
| aircmd/models/settings.py:44 | `replace(".git", "")` deletes every ".git" in the last URL segment | origin `https://github.com/acme/web.gitops.git` gives "webops" | strip one trailing ".git" to give "web.gitops" | medium, not executed | Settings.RepoNameAsWritten, Settings.RepoNameDiscrepancy | Settings.RepoName |
