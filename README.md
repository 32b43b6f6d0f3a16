# packit: identity resolution, session recording and upstream helpers

This project models three parts of packit, a tool that brings upstream
projects into Fedora dist-git:

* **`LocalProject`**, the identity-resolution engine. A project starts with a
  sparse set of optional fields: the git repository, working directory, ref,
  forge project, forge service, git URL, full name, namespace and repository
  name. `refresh_the_arguments` then runs twelve rules (`_parse_*`) as one
  `or` chain. A pass stops at the first rule that reports a change, and the
  loop ends after a pass in which no rule did.
  * `IdentityRules` models each rule as a pure function on the fields, and the
    loop as the function `Refresh`. Its termination measure is the number of
    unset fields.
  * `LocalProjects.LocalProject` is the class with the same fields. Its
    methods are tied to those functions.
  * Also modelled: the constructor's path-or-URL classification, the checkout
    of a requested ref, the temporary-clone flag and `clean`.
* **Session recording** (`SessionRecording`, `RequestResponse`):
  * the predictable `tempfile` names, which come from one shared counter;
  * the keys under which function outputs and HTTP responses are stored;
  * the directory counter of the three file-storing decorators, and the
    direction and naming of their copies;
  * the record of a `requests` response;
  * the chained `write`/`read` of redirect chains.
* **`Upstream` helpers** (`UpstreamHelpers`):
  * the spec file path;
  * the choice of upstream ref and the commit list;
  * the numbered patch files;
  * branch creation;
  * the paths of synced files;
  * the current-version sanitising;
  * the archive name and command.

Every collaborator is a parameter. Each of these is an oracle in a datatype
(`IdentityRules.Env`, `UpstreamHelpers.Repo`), a function argument
(`pathExists`) or a given sequence of answers:

* git and `git.Repo`, `get_repo` and cloning;
* the forge (`ogr` services and projects);
* `requests.head`;
* `os.path.isdir`/`exists`/`listdir`, `shutil`, `run_command`;
* `get_namespace_and_repo_name`;
* the persistent object storage.

Some collaborators are given an error result:
* opening or cloning a repository;
* the forge's `get_project`;
* `requests.head`;
* the lookup of the remote named origin;
* `os.makedirs` of an existing directory;
* `os.path.exists` of a file to sync;
* reads from the storage.

When one of them raises, the exception propagates, and the model shows it as
an error value along with the calls made so far. The other collaborators never
raise in the model; "## Left out" lists them.

Two behaviours of the code run against what a reader might expect:

* Facts the caller supplied can be overwritten. Rule 12
  (`_parse_namespace_from_git_url`, packit/local_project.py:251-261) rewrites
  both the namespace and the repository name whenever either is unset and the
  URL names a different pair. `upstream.py` passes `repo_name=package_name`
  (packit/upstream.py:80-84), so that name can be replaced.
* A failing collaborator is not skipped. The loop catches nothing: any
  exception from a rule ends `refresh_the_arguments` and the constructor.

## Model

| member | source | states |
|---|---|---|
| `IdentityRules.ParseFullName` | packit/local_project.py:144-155 | A set `full_name` is never rewritten. A set namespace and repository name with no full name give `namespace + "/" + repo_name`. A missing namespace becomes the first `/`-component. A missing repository name becomes the second, and a full name with no `/` then raises IndexError. With none of these applying, nothing changes. No collaborator is called. |
| `IdentityRules.ParseRef` | packit/local_project.py:198-202 | Reports a change exactly when there is a repository and no ref. The ref becomes the commit hash when HEAD is detached and the branch name otherwise. Otherwise nothing changes. |
| `IdentityRules.ParseNamespaceFromUrl` | packit/local_project.py:251-261 | Fires exactly when the URL is set, one of namespace or repository name is unset, and the parsed pair differs from the stored pair. It then overwrites both, including a repository name the caller supplied. |
| `IdentityRules.ParseGitRepoFromWorkingDir` | packit/local_project.py:157-175 | Definition of rule 2, with no contract of its own. With a working directory and no repository, it opens the directory if it is a git repository. Otherwise, online with a URL, it clones into it. Its frame is in `RuleFrame`, its progress in `Progress2`. |
| `IdentityRules.ParseGitProject` | packit/local_project.py:177-190 | Definition of rule 3, with no contract of its own. Online, with name, namespace and service and no project, it asks the service for the project. Frame in `RuleFrame`, progress in `Progress3`. |
| `IdentityRules.ParseGitService` | packit/local_project.py:192-196 | Definition of rule 4, with no contract of its own. Online, with a project and no service, it takes the project's service. Frame in `RuleFrame`, progress in `Progress4`. |
| `IdentityRules.ParseWorkingDir` | packit/local_project.py:204-208 | Definition of rule 6, with no contract of its own. With a repository and no working directory, it takes the repository's. Frame in `RuleFrame`, progress in `Progress6`. |
| `IdentityRules.ParseGitRepoFromGitUrl` | packit/local_project.py:210-220 | Definition of rule 7, with no contract of its own. Online, with a URL and neither working directory nor repository, it clones into a temporary directory and then sets the flag. Frame in `RuleFrame`, progress in `Progress7`. |
| `IdentityRules.ParseGitUrlFromProject` | packit/local_project.py:222-226 | Definition of rule 8, with no contract of its own. Online, with a project and no URL, it takes the "git" URL, raising KeyError when there is none. Frame in `RuleFrame`, progress in `Progress8`. |
| `IdentityRules.ParseRepoNameFromProject` | packit/local_project.py:228-232 | Definition of rule 9, with no contract of its own. With a project and no repository name, it takes the project's. Frame in `RuleFrame`, progress in `Progress9`. |
| `IdentityRules.ParseNamespaceFromProject` | packit/local_project.py:234-238 | Definition of rule 10, with no contract of its own. With a project and no namespace, it takes the project's. Frame in `RuleFrame`, progress in `Progress10`. |
| `IdentityRules.ParseGitUrlFromRepo` | packit/local_project.py:240-249 | Definition of rule 11, with no contract of its own. With a repository and no URL, it takes the first URL of the origin remote, raising when there is no origin or no URL. Frame in `RuleFrame`, progress in `Progress11`. |
| `IdentityRules.PassFrom` | packit/local_project.py:118-131 | Definition of the `or` chain from rule `k`, with no contract of its own. `PassFromIsFirstActive` states what it computes. |
| `IdentityRules.Pass` | packit/local_project.py:118-131 | Definition of one pass, with no contract of its own. `PassStopsAtFirstActiveRule`, `PassFrame` and `PassProgress` state its properties. |
| `IdentityRules.FirstActiveFrom` | packit/local_project.py:118-131 | The first rule at or after `k` that does not return False, or 13 when all of them do. |
| `IdentityRules.BeforeFirstActiveIsIdle` | packit/local_project.py:118-131 | Every rule between `k` and the first active rule returned False. |
| `IdentityRules.IdleRuleKeepsFacts` | packit/local_project.py:144-261 | A rule that returns False changes no field. |
| `IdentityRules.PassFromIsFirstActive` | packit/local_project.py:118-131 | The `or` chain from rule `k` has the fields and outcome of its first active rule. Its calls are those of the rules tried up to and including that one. |
| `IdentityRules.PassStopsAtFirstActiveRule` | packit/local_project.py:118-131 | A pass reports no change iff all twelve rules return False. Otherwise it ends with the first rule that did not return False, and later rules do not run. |
| `IdentityRules.RuleProgress` | packit/local_project.py:144-261 | Under non-empty oracle answers, a rule that returns True fills at least one unset field and keeps the loop invariant. |
| `IdentityRules.Progress1` | packit/local_project.py:144-155 | Rule 1 returning True lowers the number of unset fields and keeps the invariant. |
| `IdentityRules.Progress2` | packit/local_project.py:157-175 | The same for rule 2 (repository from working directory). |
| `IdentityRules.Progress3` | packit/local_project.py:177-190 | The same for rule 3 (project from service, namespace and name). |
| `IdentityRules.Progress4` | packit/local_project.py:192-196 | The same for rule 4 (service from project). |
| `IdentityRules.Progress5` | packit/local_project.py:198-202 | The same for rule 5 (ref from repository). |
| `IdentityRules.Progress6` | packit/local_project.py:204-208 | The same for rule 6 (working directory from repository). |
| `IdentityRules.Progress7` | packit/local_project.py:210-220 | The same for rule 7 (clone from URL). |
| `IdentityRules.Progress8` | packit/local_project.py:222-226 | The same for rule 8 (URL from project). |
| `IdentityRules.Progress9` | packit/local_project.py:228-232 | The same for rule 9 (repository name from project). |
| `IdentityRules.Progress10` | packit/local_project.py:234-238 | The same for rule 10 (namespace from project). |
| `IdentityRules.Progress11` | packit/local_project.py:240-249 | The same for rule 11 (URL from origin remote). |
| `IdentityRules.Progress12` | packit/local_project.py:251-261 | The same for rule 12 (namespace and name from URL), although it may overwrite. |
| `IdentityRules.PassProgress` | packit/local_project.py:112-131 | A pass that reports a change lowers the number of unset fields and keeps the invariant. This is the termination argument of the `while change` loop. |
| `IdentityRules.IdlePassKeepsFacts` | packit/local_project.py:113-131 | The pass that ends the loop changed nothing. |
| `IdentityRules.Refresh` | packit/local_project.py:112-131 | The loop ends within one more pass than there are unset fields. Without an error, its result keeps the invariant, and one more pass would change nothing. |
| `IdentityRules.RuleFrame` | packit/local_project.py:144-261 | Every rule except rule 12 changes only fields that were unset. Rule 12 writes the parsed pair as it is, so it may replace a namespace or repository name, or set it to None, but only while the other one is unset. Only rule 1 writes `full_name`. Only rule 7 turns the temporary flag on: after a clone from the URL with no working directory and no repository, online. Offline, no rule makes a remote call or changes the service, the project or the flag. |
| `IdentityRules.PassFrame` | packit/local_project.py:118-131 | The frame facts of the rules, for a whole pass. A pass with a known working directory leaves the temporary flag alone. |
| `IdentityRules.RefreshKeeps` | packit/local_project.py:112-131 | After resolution every set field keeps its value. The one exception: a supplied namespace or repository name is kept only when both were supplied. |
| `IdentityRules.SuppliedPairIsKept` | packit/local_project.py:251-261 | A namespace and repository name supplied together survive resolution. |
| `IdentityRules.OfflineRefreshIsLocal` | packit/local_project.py:157-226 | Offline, resolution never clones, queries the forge or probes, and never changes the service, the project or the temporary flag. |
| `IdentityRules.TemporaryOnlyAfterClone` | packit/local_project.py:210-220 | If the flag is set after resolution, it was set before, or resolution (online) made a clone into a temporary directory. |
| `IdentityRules.ExistingWorkingDirIsNotTemporary` | packit/local_project.py:161-173 | With a working directory given, resolution (including cloning into it) leaves the temporary flag as it was. |
| `IdentityRules.RefreshIsIdempotent` | packit/local_project.py:112-131 | Resolving an already resolved project changes nothing, and the loop stops after one pass. |
| `IdentityRules.FullNameSplitsBack` | packit/local_project.py:146-153 | A full name built from a slash-free namespace and name splits back into exactly those two. |
| `IdentityRules.MalformedFullNameNeverSettles` | packit/local_project.py:144-155 | With a full name whose first component is empty and an empty namespace, every pass reports a change and leaves the fields as they were, so the loop never ends. This is why termination needs the invariant. |
| `IdentityRules.ResolvedFactsAreClosed` | packit/local_project.py:112-131 | After an error-free resolution: a repository implies a working directory, ref and URL. A project implies namespace and name, plus, online, a service and a URL. A URL or a full name implies namespace and name, and those imply a full name. An online URL with no working directory implies a repository. |
| `IdentityRules.RuleKeepsFullNameJoined` | packit/local_project.py:144-261 | No rule breaks a `full_name` that equals namespace, slash, repository name. Rule 1 writes it only from both names. The rules that write a name run only while it is unset, which a joined full name rules out. |
| `IdentityRules.PassKeepsFullNameJoined` | packit/local_project.py:118-131 | A pass keeps a joined `full_name` joined. |
| `IdentityRules.RefreshKeepsFullNameJoined` | packit/local_project.py:112-131 | Starting from fields whose `full_name`, if set, is joined from the two names, the resolution keeps it joined, whether it raises or not. This covers every start with no `full_name` supplied. |
| `IdentityRules.ResolvedFullNameIsJoined` | packit/local_project.py:112-155 | From such fields, an error-free resolution that knows both names ends with `full_name == namespace + "/" + repo_name`. |
| `IdentityRules.SuppliedTripleIsKept` | packit/local_project.py:144-261 | A supplied full name, namespace and repository name are all kept, even when they disagree. |
| `IdentityRules.TemporaryHasRepo` | packit/local_project.py:210-220 | A temporary flag always comes with a repository. |
| `IdentityRules.IsUrl` | packit/local_project.py:133-142 | `_is_url` is true iff the HEAD request answered `ok`. It is false on a caught HTTP error or a non-ok answer. Any other exception escapes. |
| `IdentityRules.ClassifyPathOrUrl` | packit/local_project.py:68-72 | An existing directory becomes the working directory unless one was given. Otherwise, online only, a probed URL becomes the git URL unless one was given. Only the probe can raise, and offline nothing remote is called. |
| `IdentityRules.Checkout` | packit/local_project.py:88-94 | Checking out a requested ref creates the branch if needed and moves HEAD onto it. It raises when there is no repository, and changes nothing else. |
| `IdentityRules.Construct` | packit/local_project.py:35-94 | Definition of the constructor, with no contract of its own. It classifies the path or URL, resolves when asked, then checks out a requested ref. The first exception ends it. `ConstructKeepsArguments`, `ConstructOffline` and `CleanRemovesTemporaryClone` state its properties. |
| `IdentityRules.ConstructKeepsArguments` | packit/local_project.py:35-94 | A constructed project keeps the supplied full name, the offline flag and a jointly supplied namespace and name. A requested ref is checked out and is the current branch. |
| `IdentityRules.ConstructOffline` | packit/local_project.py:67-86 | An offline construction makes only local calls, keeps the supplied service and project, and never sets the temporary flag. |
| `IdentityRules.Clean` | packit/local_project.py:106-110 | With the flag unset, nothing happens. With it set, the working directory is removed and the flag cleared; with no working directory, `rmtree` raises instead. |
| `IdentityRules.CleanIsIdempotent` | packit/local_project.py:106-110 | A second `clean` removes nothing and changes nothing. |
| `IdentityRules.CleanRemovesTemporaryClone` | packit/local_project.py:106-110 | After a construction that cloned into a temporary directory, `clean` removes exactly that directory. |
| `LocalProjects.LocalProject.Create` | packit/local_project.py:35-94 | The constructor's new object holds the fields `Construct` computes, with its error and calls. |
| `LocalProjects.LocalProject.ReadPathOrUrl` | packit/local_project.py:68-72 | Returns the working directory and URL of `ClassifyPathOrUrl`, and the probe's exception. |
| `LocalProjects.LocalProject.Ref` | packit/local_project.py:96-104 | `ref` is None iff there is no repository. Otherwise it is the commit hash of a detached HEAD, or the branch name. |
| `LocalProjects.LocalProject.CheckOut` | packit/local_project.py:88-94 | The fields after the checkout are those of `Checkout`. |
| `LocalProjects.LocalProject.Clean` | packit/local_project.py:106-110 | The fields and removal are those of `Clean`. |
| `LocalProjects.LocalProject.RefreshTheArguments` | packit/local_project.py:112-131 | The `while change` loop leaves the fields, the error and the calls of `Refresh`. |
| `LocalProjects.LocalProject.OrChainFrom` | packit/local_project.py:118-131 | The `or` chain from rule `k` leaves the fields, the outcome and the calls of `PassFrom`. |
| `LocalProjects.LocalProject.ParseRepoNameFullNameAndNamespace` | packit/local_project.py:144-155 | Updates the fields as rule 1 does. |
| `LocalProjects.LocalProject.ParseGitRepoFromWorkingDir` | packit/local_project.py:157-175 | With a working directory and no repository: opens the directory if it is a git repository. Otherwise, online with a URL, clones into it. |
| `LocalProjects.LocalProject.ParseGitProjectFromRepoNamespaceAndGitProject` | packit/local_project.py:177-190 | Online, with name, namespace and service and no project: asks the service for the project. |
| `LocalProjects.LocalProject.ParseGitServiceFromGitProject` | packit/local_project.py:192-196 | Online, with a project and no service: takes the project's service. |
| `LocalProjects.LocalProject.ParseRefFromGitRepo` | packit/local_project.py:198-202 | Updates the fields as rule 5 does. |
| `LocalProjects.LocalProject.ParseWorkingDirFromGitRepo` | packit/local_project.py:204-208 | With a repository and no working directory: takes the repository's. |
| `LocalProjects.LocalProject.ParseGitRepoFromGitUrl` | packit/local_project.py:210-220 | Online, with a URL and no working directory or repository: clones into a temporary directory, then sets the flag. |
| `LocalProjects.LocalProject.ParseGitUrlFromGitProject` | packit/local_project.py:222-226 | Online, with a project and no URL: takes its "git" URL. A missing entry raises KeyError. |
| `LocalProjects.LocalProject.ParseRepoNameFromGitProject` | packit/local_project.py:228-232 | With a project and no repository name: takes the project's. |
| `LocalProjects.LocalProject.ParseNamespaceFromGitProject` | packit/local_project.py:234-238 | With a project and no namespace: takes the project's. |
| `LocalProjects.LocalProject.ParseGitUrlFromGitRepo` | packit/local_project.py:240-249 | With a repository and no URL: takes the first URL of the origin remote. It raises when there is no origin or no URL. |
| `LocalProjects.LocalProject.ParseNamespaceFromGitUrl` | packit/local_project.py:251-261 | Updates the fields as rule 12 does. |
| `SessionRecording.TempNamesDiffer` | packit/session_recording.py:34-37 | Names made with different counter values differ, whatever the roots and prefixes. |
| `SessionRecording.TempFile.constructor` | packit/session_recording.py:30-32 | The counter starts at 0, the root is `/tmp` and the prefix `static_tmp`. |
| `SessionRecording.TempFile.GetName` | packit/session_recording.py:34-37 | Raises the counter by exactly one. Returns `root/(prefix or "static_tmp")_counter` with the new counter, and changes nothing else. |
| `SessionRecording.TempFile.Mktemp` | packit/session_recording.py:39-41 | The same name and counter step; no directory is created. |
| `SessionRecording.TempFile.Mkdtemp` | packit/session_recording.py:43-47 | The same name and counter step. The named directory exists afterwards, and `makedirs` raises iff it existed before. |
| `SessionRecording.PositionalKeys` | packit/session_recording.py:264 | `isinstance(int, str)` is always false, so positional arguments add no key. |
| `SessionRecording.KeywordKeys` | packit/session_recording.py:265 | One key `"k:v"` per keyword argument, in call order. |
| `SessionRecording.AllKeys` | packit/session_recording.py:261-266 | The keys of `execute_all_keys`: module and function name, then one key per keyword argument, `2 + len(kwargs)` in all. |
| `SessionRecording.Select` | packit/session_recording.py:283-287 | An integer item selects `args[i]` and raises IndexError iff it is out of range (negative indices count from the end). Any other item selects `kwargs[k]` and raises KeyError iff `k` is absent. |
| `SessionRecording.SelectAll` | packit/session_recording.py:283-287 | Succeeds iff every item can be selected, giving those values in item order. Otherwise it raises the error of the first item that fails. |
| `SessionRecording.SelectedKeys` | packit/session_recording.py:282-287 | The keys of `decorator_selected_keys`: module and function name, then the selected values, or the first selection error. |
| `SessionRecording.CopyLogic` | packit/session_recording.py:57-78 | Definition, with no contract of its own. A write-mode copy goes from the program's path into the storage; a read-mode copy goes back. `ReplayReversesRecording` and `ArgReferencesCopies` use this direction. |
| `SessionRecording.FunctionKeys` | packit/session_recording.py:168 | Definition, with no contract of its own: the module name, then the function name. `KeysIgnoreArguments` states what follows. |
| `SessionRecording.ParamOf` | packit/session_recording.py:124-127 | On replay, a stored name is read as a keyword iff it is not all digits. |
| `SessionRecording.ParamNameRoundTrip` | packit/session_recording.py:110-127 | Position `i` is stored as `str(i)` and read back as position `i`. A keyword whose name is not all digits is stored under its name and read back as that keyword. |
| `SessionRecording.StoredPositions` | packit/session_recording.py:110-116 | Recording stores only positional string arguments that name an existing path, each under its own position. |
| `SessionRecording.StoredPositionsComplete` | packit/session_recording.py:110-116 | Every positional string argument naming an existing path is stored. |
| `SessionRecording.StoredKeywords` | packit/session_recording.py:117-120 | Recording stores only keyword arguments naming an existing path, each under its own name. |
| `SessionRecording.StoredKeywordsComplete` | packit/session_recording.py:117-120 | Every keyword argument naming an existing path is stored. |
| `SessionRecording.ReplayReversesRecording` | packit/session_recording.py:110-128 | Replaying the name an argument was stored under copies the stored file back onto that argument: the reverse of the recording copy. |
| `SessionRecording.RecordThenReplay` | packit/session_recording.py:109-128 | Replay over a listing in any order raises nothing, provided every name is one that recording stored an argument under. It makes one copy per listed name, the reverse of the recording copy of the argument stored under that name. |
| `SessionRecording.RecordedOutput` | packit/session_recording.py:172-178 | Definition, with no contract of its own. In write mode it is the function's own result. In read mode it is the next answer of the storage, or the read fault when the answers have run out. |
| `SessionRecording.RecordedState` | packit/session_recording.py:172-177 | Definition, with no contract of its own: one `store` in write mode, one `read` in read mode, both under the function's keys. |
| `SessionRecording.ReturnValueStep` | packit/session_recording.py:86-93 | Definition, with no contract of its own. It makes the data directory, takes a directory number and records the call. It then copies the output path to or from that directory, and a record that is not a path fails. `DirCountPerCall` states its counter step. |
| `SessionRecording.ArgReferencesStep` | packit/session_recording.py:145-155 | Definition, with no contract of its own. It records the call, then runs the copy loop over `files_params`. `DirCountPerCall` and `ArgReferencesCopies` state its effect. |
| `SessionRecording.GuessArgsStep` | packit/session_recording.py:103-129 | Definition, with no contract of its own. It takes a directory number and records the call. It then copies the stored arguments in write mode, or replays the listing in read mode. `DirCountPerCall` and `RecordThenReplay` state its effect. |
| `SessionRecording.KeysIgnoreArguments` | packit/session_recording.py:168-178 | The keys are the module and function name alone. Recording stores the function's output under them. Replaying two calls of the same function gives the same output whatever their arguments. |
| `SessionRecording.DirCountPerCall` | packit/session_recording.py:81-159 | `store_files_return_value` and `store_files_guess_args` raise `dir_count` by exactly one per call. `store_files_arg_references` raises it by one per `files_params` entry when it returns, and by no more when it raises. |
| `SessionRecording.ArgReferencesCopies` | packit/session_recording.py:145-154 | After a successful recorded call, `store_files_arg_references` returns iff every entry names an argument. Entry `j` is then copied to or from directory number `dir_count + j`, in the direction of the storage's mode. |
| `SessionRecording.Storage.RecordedFunction` | packit/session_recording.py:162-180 | Not recording: calls the function and stores nothing. Write mode: calls it and stores its output once under its keys. Read mode: does not call it, reads once under its keys and returns what was read. |
| `SessionRecording.Storage.StoreFilesReturnValue` | packit/session_recording.py:81-95 | Not recording, a plain call. Recording, the storage after the call and its output are those of `ReturnValueStep`: one directory number taken, the call recorded, the output copied. |
| `SessionRecording.Storage.StoreFilesArgReferences` | packit/session_recording.py:134-159 | Not recording, a plain call. Recording, the storage and output are those of `ArgReferencesStep`. |
| `SessionRecording.Storage.CopyReferences` | packit/session_recording.py:147-154 | The loop over `files_params` takes a directory number and makes a copy per entry, in order, until an entry names no argument. |
| `SessionRecording.Storage.StoreFilesGuessArgs` | packit/session_recording.py:98-131 | Not recording, a plain call. Recording, the storage and output are those of `GuessArgsStep`. |
| `SessionRecording.Storage.RecordArgs` | packit/session_recording.py:109-120 | Write mode copies the stored positional arguments, then the stored keyword arguments, into the call's directory, and nothing else. |
| `SessionRecording.Storage.RecordPositions` | packit/session_recording.py:110-116 | The positional loop copies exactly the stored positional arguments, in order. |
| `SessionRecording.Storage.RecordKeywords` | packit/session_recording.py:117-120 | The keyword loop copies exactly the stored keyword arguments, in order. |
| `SessionRecording.Storage.ReplayArgs` | packit/session_recording.py:121-128 | The listing loop copies each listed file back onto its argument, in order, and stops at the first missing index or keyword. |
| `RequestResponse.ToRecord` | packit/session_recording.py:217-232 | Definition, with no contract of its own: one entry per listed key, cookies ignored. `RecordKeys` and `RecordRoundTrip` state its content. |
| `RequestResponse.FromRecord` | packit/session_recording.py:234-247 | Definition, with no contract of its own. It sets the listed fields of a fresh response in order and raises KeyError on a missing entry. `RecordRoundTrip` states that it inverts `ToRecord`. |
| `RequestResponse.RecordRoundTrip` | packit/session_recording.py:217-247 | `_from_dict(_to_dict(r))` rebuilds `r` apart from the cookies and the next response. The `_next` entry is the handler's keys iff `r` has a next response, and None otherwise. |
| `RequestResponse.WriteLog` | packit/session_recording.py:204-208 | `write` stores the record of the response itself first, under the handler's keys. |
| `RequestResponse.ReadChain` | packit/session_recording.py:210-215 | `read` reads at least once. |
| `RequestResponse.WriteThenRead` | packit/session_recording.py:204-215 | Replaying what `write` stored for a chain of ok responses, wherever it sits in the storage, rebuilds the chain without cookies. It reads exactly as many records as were written. |
| `RequestResponse.NotOkNextIsNotReplayed` | packit/session_recording.py:206-214 | For every response whose next response is not ok, `write` stores one record only, since that next response is falsy. The record still announces a next one. Replay therefore takes whatever record follows as the next response. With nothing after it, replay makes a second read, which runs out. |
| `RequestResponse.EmptyKeysStopReplay` | packit/session_recording.py:213-214 | Empty store keys make `_next` falsy, so replay stops after one record. |
| `RequestResponse.RequestResponseHandling.ToDict` | packit/session_recording.py:217-232 | The two loops build exactly the response record. |
| `RequestResponse.RequestResponseHandling.FromDict` | packit/session_recording.py:234-247 | The two loops rebuild the response of `FromRecord`. They raise on a missing entry. |
| `RequestResponse.RequestResponseHandling.Write` | packit/session_recording.py:204-208 | Returns the response. Appends one record per link of the chain of truthy next responses, and changes nothing else. |
| `RequestResponse.RequestResponseHandling.Read` | packit/session_recording.py:210-215 | Returns the chain `ReadChain` rebuilds, having read under the handler's keys once per record it used. |
| `RequestResponse.RequestResponseHandling.Execute` | packit/session_recording.py:249-258 | Write mode returns the function's response and writes its chain under the keys. Read mode returns what is read back. |
| `RequestResponse.RequestResponseHandling.ExecuteAllKeys` | packit/session_recording.py:260-267 | `execute` under the keys of `AllKeys`. |
| `RequestResponse.RequestResponseHandling.ExecuteSelectedKeys` | packit/session_recording.py:277-292 | `execute` under the module, the function name and the selected values. A selection error leaves the storage untouched. |
| `UpstreamHelpers.SpecfilePath` | packit/upstream.py:43-49 | None iff the package name is unset. With no working directory, `os.path.join` raises. Otherwise the path ends in `<package_name>.spec`. For a relative package name it starts with the working directory, and is exactly `working_dir + "/" + package_name + ".spec"` when the directory does not end in `/`, else `working_dir + package_name + ".spec"`. An absolute package name gives `<package_name>.spec`, since `os.path.join` then drops the directory. |
| `UpstreamHelpers.UpstreamRef` | packit/upstream.py:172-179 | A tag is used as it is. Otherwise `origin/<upstream>` is used, and that ref must exist, else the call raises. |
| `UpstreamHelpers.GetCommitsToUpstream` | packit/upstream.py:157-196 | The first-parent commits from the chosen ref to the current ref. With the head flag, the ref's commit is prepended and the order is otherwise kept. |
| `UpstreamHelpers.OnePatchPerCommit` | packit/upstream.py:182-191 | The commit list `create_patches` works on is the upstream commit followed by the delta, one entry longer than the delta. |
| `UpstreamHelpers.Commits` | packit/upstream.py:157-191 | `get_commits_to_upstream` with the head flag, as a value: a successful result holds at least one commit, the upstream ref's own. `OnePatchPerCommit` states its exact shape. |
| `UpstreamHelpers.PatchName` | packit/upstream.py:320 | Definition, with no contract of its own: `f"{k:04d}-{hexsha}.patch"`. `PatchNameNumbered`, `PatchNamesDiffer` and `PatchNameInjective` state its properties. |
| `UpstreamHelpers.PatchMessage` | packit/upstream.py:322 | Definition, with no contract of its own: the summary, a newline, and `Author: name <email>`. `CreatePatches` returns it per patch. |
| `UpstreamHelpers.PatchNameNumbered` | packit/upstream.py:320 | For numbers below 10000 a patch name begins with its number as four digits, then a dash. |
| `UpstreamHelpers.PatchNamesDiffer` | packit/upstream.py:320 | Distinct patch numbers give distinct names, with no bound on the numbers and whatever the commits. |
| `UpstreamHelpers.PatchNameInjective` | packit/upstream.py:320 | Equal patch names have equal numbers: the digits before the first dash are the padded number. |
| `UpstreamHelpers.CreatePatches` | packit/upstream.py:300-344 | For commits `c0..cn`, exactly `n` patches. Patch `k` diffs `c(k-1)` to `ck`, is named `kkkk-<hexsha>.patch`, and carries the summary and author. All are written into the destination (else the working directory), in order. The missing upstream is the spec version. |
| `UpstreamHelpers.Branches.CreateBranch` | packit/upstream.py:108-136 | The heads, tracking and result are those of `CreateBranchStep`. |
| `UpstreamHelpers.CreateBranchStep` | packit/upstream.py:119-136 | Definition, with no contract of its own. `remote("origin")` comes first and raises without that remote. Then an existing branch is returned. Otherwise the head is created, and tracking is set up when asked. The two lemmas below state what this means. |
| `UpstreamHelpers.CreateBranchIdempotent` | packit/upstream.py:119-127 | Without an origin remote, every call raises and changes nothing. With one, creating a branch that already exists returns it and changes nothing, whatever the base and tracking flag. |
| `UpstreamHelpers.CreateBranchEffect` | packit/upstream.py:119-134 | Without an origin remote the call raises before creating a head. With one, a new branch is created at its base. With tracking it tracks `origin/<name>`, or the call raises iff origin lacks the branch, after the head was created. Other branches' tracking is untouched. |
| `Text.PathJoinRelative` | packit/upstream.py:46-48 | `os.path.join` of a relative component starts with the directory. It adds a separator exactly when the directory lacks one. |
| `UpstreamHelpers.StripOneSlash` | packit/upstream.py:374 | Exactly one leading `/` is removed. |
| `UpstreamHelpers.SyncSource` | packit/upstream.py:374-375 | A relative path is joined under the downstream directory. A path starting `//` keeps a leading `/` after stripping, so `os.path.join` ignores the directory. |
| `UpstreamHelpers.SyncFiles` | packit/upstream.py:366-383 | With the action enabled, copies the files in order until one is missing, and raises for that one. Each copy goes into the upstream working directory. A `None` list raises. |
| `UpstreamHelpers.CurrentVersion` | packit/upstream.py:404-424 | The action output verbatim when it is non-empty. Otherwise the stripped command output, with every `-` replaced by `.`. |
| `UpstreamHelpers.VersionSanitisingIdempotent` | packit/upstream.py:417-422 | Sanitising an already sanitised version changes nothing. |
| `UpstreamHelpers.DirName` | packit/upstream.py:472-478 | `(upstream_project_name or package_name) + "-" + version`. |
| `UpstreamHelpers.ArchiveCommand` | packit/upstream.py:464-495 | Runs only with the action enabled. A configured tarball command is used as it is. Otherwise `git archive -o <dir_name>.tar.gz --prefix <dir_name>/ HEAD`. |

## Left out

- Real git, forge, HTTP and filesystem effects are oracles or abstract state:
  `git.Repo`, `get_repo`, `ogr` services and projects, `requests.head`,
  `os.path.isdir`/`exists`/`listdir`, `os.makedirs`, `shutil.rmtree`,
  `shutil.copy2`, and `cp` and `git diff` through `run_command`.
  `_copy_logic` is kept only as the direction of the copy: a directory is
  copied like a file.
- Termination of `refresh_the_arguments` is proved only when the oracles return
  non-empty values and a given `full_name` has the components rule 1 reads.
  `MalformedFullNameNeverSettles` exhibits a loop that does not end otherwise.
- `IdentityRules.Refresh`: requires the termination precondition above; the
  source loop has no precondition.
- The persistent object storage: `store` appends to a log. `read` returns the
  next of a given sequence of answers and carries no consumption semantics
  beyond that. Its dump/load format is not modelled.
- `upgrade_import_system`, `ReplaceType` and the import hook: these rewrite
  modules at run time.
- `get_if_recording` (an environment variable) is a parameter. `get_version`
  compares versions with the `packaging` library. SpecFile and rebase-helper
  edits, `rpmbuild`, `create_srpm`, `push`, `create_pull`, `checkout_pr`,
  `checkout_branch`, `checkout_release`, `commit` and the GitHub-app token flow
  are not part of this model.
- In `requests`, `Response.next` is the prepared request of the redirect that
  follows. It is modelled as an optional response, and its truth value as
  `ok`.
- RequestResponse.WriteThenRead: holds for a `next` that is a response, as
  `read` builds it (packit/session_recording.py:213-214). A live `requests`
  `next` is a prepared request: it is always truthy and has no `status_code`.
  For a live redirect, `write` therefore stores the first record, and the
  recursive `_to_dict` then raises AttributeError
  (packit/session_recording.py:206-207, 219-220). That path is not modelled.
- RequestResponse.NotOkNextIsNotReplayed: the same restriction to a
  response-typed `next`. Its conclusion that replay runs out also rests on the
  storage being a sequence of answers read in order.
- The raw stream is read to its bytes once; stream consumption is not modelled.
- `elapsed` is an integer number of microseconds instead of a float of
  seconds.
- Cookies are not recorded, as the source ignores them.
- A record entry of the wrong kind stops `_from_dict` with an error; Python
  would store the value anyway.
- The model turns a falsy stored `_next` into None. `_from_dict` stores the
  entry itself (packit/session_recording.py:246-247), so with empty store keys
  the replayed Python response carries `_next == []`. `EmptyKeysStopReplay`
  states the model's None.
- Python's `isdigit` and `strip` are modelled for ASCII only: the ASCII
  digits, and the ASCII characters `str.isspace` accepts, 0x1C-0x1F included.
  Non-ASCII digits and whitespace (U+0085, U+00A0 and others) are not
  modelled.
- The `pstorage` argument of `RequestResponseHandling` is the storage object
  passed in; the class-level default is not modelled.
- `__del__` calls `clean` at an unspecified time and is not modelled, nor is
  logging.
- `dir_count` and the `tempfile` counter are unbounded integers, as in Python.
- IdentityRules.RefreshKeepsFullNameJoined: the code does not enforce
  `full_name == namespace + "/" + repo_name` for supplied values. A supplied
  triple that disagrees, such as full name "a/b" with repository name "y", is
  kept as it is (`SuppliedTripleIsKept`), and nothing raises. The equality is
  proved only from fields where it already holds, such as fields with no full
  name supplied.
- IdentityRules.Construct: with `refresh` it needs the termination
  precondition of `Refresh`.
- Collaborators that never raise in the model:
  - `get_git_urls()` is the project's URL map. Only a missing "git" entry
    raises, with KeyError; a failing forge call there is not modelled.
  - `create_head` and `checkout` of a requested ref in the constructor
    (packit/local_project.py:91-94) always succeed once there is a
    repository.
  - `git diff` through `run_command`, and writing the patch file, in
    `create_patches` (packit/upstream.py:325-341). Their failures are not
    modelled.
  - `shutil.copy2` in `sync_files` (packit/upstream.py:378) succeeds once the
    source exists. It would raise for a directory, which is not modelled.
  - `os.path.exists` is a total predicate `pathExists`. In Python,
    `os.path.exists(None)` for a keyword argument passed as None raises
    TypeError (packit/session_recording.py:118).
  - The decorated function always returns its `result`; an exception from it
    is not modelled.
  - `get_namespace_and_repo_name`, `is_git_repo` and `os.path.isdir` are total
    oracles.
  - `create_head(branch_name, commit=base)` in `create_branch`
    (packit/upstream.py:126) always succeeds: `CreateBranchStep` sets the head
    to `base` even when the base does not resolve.
  - `set_tracking_branch` (packit/upstream.py:134) always succeeds once origin
    has the branch.
  - `iter_commits` (packit/upstream.py:181-187) is the total function
    `Repo.log` of a range string, including the range `"origin/x..None"` built
    from a project without a repository.
  - `run_command(current_version_command)` (packit/upstream.py:416-418):
    `CurrentVersion` takes the command's output as a given string.
  - `os.makedirs` and `cp` through `run_command` in `_copy_logic`
    (packit/session_recording.py:66-78): a copy is recorded as its direction
    only, and neither call fails.
  - `shutil.rmtree` in `clean` (packit/local_project.py:109): `Clean` gives
    `Removed(dir)` for any set working directory, including a missing
    directory or `""`. Only `rmtree(None)` raises.
  - `os.path.join(downstream_project.working_dir, fi)` and
    `copy2(src, self.local_project.working_dir)` in `sync_files`
    (packit/upstream.py:375, 378): `SyncFiles` takes both working directories
    as strings, so a None directory and its TypeError are not modelled.
  - `get_specfile_version()` in `create_patches` (packit/upstream.py:311) is a
    given string `specVersion`, and the `package_config` queries
    (`with_action`, `get_output_from_action`) are given values.
  - `create_archive` (packit/upstream.py:464-495) is modelled up to the
    command it builds. `ArchiveCommand` returns that command; running it is not
    modelled, and the version in `dir_name` is a given string.
- `_get_ref_from_git_repo` returns `active_branch`, a `git.Head`, on a branch
  (packit/local_project.py:267). `RefOf` and `LocalProject.Ref` store the
  branch name instead. Its only consumer formats it into a range string
  (packit/upstream.py:183), which gives the same name.
