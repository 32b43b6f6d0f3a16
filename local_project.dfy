/**
 * `LocalProject` (packit/local_project.py) as a class whose fields the rules
 * update in place. Every method is specified by the function of
 * `IdentityRules` that models it on a snapshot of the fields, so the lemmas
 * proved there are about these methods too.
 */
module LocalProjects {
  import opened Base
  import opened IdentityRules

  class LocalProject {
    var gitRepo: Option<GitRepo>
    var workingDir: Option<string>
    var ref: Option<string>              // `_ref`
    var gitProject: Option<GitProject>
    var gitService: Option<GitService>
    var gitUrl: Option<string>
    var fullName: Option<string>
    var namespace: Option<string>
    var repoName: Option<string>
    var offline: bool
    var workingDirTemporary: bool

    /** The fields, as the value the rules are defined on. */
    function Snapshot(): Facts
      reads this
    {
      Facts(gitRepo, workingDir, ref, gitProject, gitService, gitUrl, fullName,
            namespace, repoName, offline, workingDirTemporary)
    }

    /** The field assignments of `__init__`. */
    constructor (s: Facts)
      ensures Snapshot() == s
    {
      gitRepo := s.gitRepo;
      workingDir := s.workingDir;
      ref := s.ref;
      gitProject := s.gitProject;
      gitService := s.gitService;
      gitUrl := s.gitUrl;
      fullName := s.fullName;
      namespace := s.namespace;
      repoName := s.repoName;
      offline := s.offline;
      workingDirTemporary := s.workingDirTemporary;
    }

    /** `__init__`: read `path_or_url`, assign the fields, resolve if asked and
        check out the requested ref. `err` is the exception it raised. */
    static method Create(a: Arguments, env: Env) returns (p: LocalProject, err: Option<Error>, calls: seq<Call>)
      requires a.refresh ==> Sane(env) && ArgumentsSettle(a)
      ensures fresh(p)
      ensures var b := Construct(a, env);
        p.Snapshot() == b.facts && err == b.error && calls == b.calls
    {
      var workingDir, gitUrl;
      workingDir, gitUrl, err, calls := ReadPathOrUrl(a, env);
      p := new LocalProject(Given(a).(workingDir := workingDir, gitUrl := gitUrl));
      if err.Some? {
        return;
      }
      if a.refresh {
        var e, more := p.RefreshTheArguments(env);
        calls := calls + more;
        if e.Some? {
          err := e;
          return;
        }
      } else {
        assert calls + [] == calls;
      }
      if Truthy(a.ref) {
        err := p.CheckOut(a.ref.value);
      }
    }

    /** The `path_or_url` branch at the top of `__init__`. */
    static method ReadPathOrUrl(a: Arguments, env: Env)
      returns (workingDir: Option<string>, gitUrl: Option<string>, err: Option<Error>, calls: seq<Call>)
      ensures var c := ClassifyPathOrUrl(a, env);
        && workingDir == c.facts.workingDir && gitUrl == c.facts.gitUrl
        && calls == c.calls && (err.Some? <==> c.outcome.Raised?)
        && (err.Some? ==> err.value == c.outcome.error)
    {
      workingDir := a.workingDir;
      gitUrl := a.gitUrl;
      calls := [];
      err := None;
      if Truthy(a.pathOrUrl) {
        var path := a.pathOrUrl.value;
        calls := [IsDir(path)];
        if env.isDir(path) {
          workingDir := Or(workingDir, a.pathOrUrl);
        } else if !a.offline {
          calls := calls + [Probe(path)];
          var isUrl := IsUrl(path, env);
          if isUrl.None? {
            err := Some(CallRaised(Probe(path)));
          } else if isUrl.value {
            gitUrl := Or(gitUrl, a.pathOrUrl);
          }
        }
      }
    }

    /** The `ref` property: the commit or branch of HEAD, or None without a repository. */
    function Ref(): (r: Option<string>)
      reads this
      ensures r.Some? <==> gitRepo.Some?
      ensures gitRepo.Some? && gitRepo.value.head.Detached? ==> r == Some(gitRepo.value.head.commit)
      ensures gitRepo.Some? && gitRepo.value.head.OnBranch? ==> r == Some(gitRepo.value.head.branch)
    {
      if gitRepo.Some? then Some(RefOf(gitRepo.value)) else None
    }

    /** The checkout at the end of `__init__`. */
    method CheckOut(name: string) returns (err: Option<Error>)
      modifies this
      ensures match Checkout(old(Snapshot()), name)
        case Success(t) => Snapshot() == t && err.None?
        case Failure(e) => Snapshot() == old(Snapshot()) && err == Some(e)
    {
      if gitRepo.None? {
        return Some(NoGitRepoToCheckout);
      }
      var repo := gitRepo.value;
      if name !in repo.branches {
        repo := repo.(branches := repo.branches + {name});
      }
      gitRepo := Some(repo.(head := OnBranch(name)));
      err := None;
    }

    /** `clean`. */
    method Clean() returns (removal: Removal)
      modifies this
      ensures (Snapshot(), removal) == IdentityRules.Clean(old(Snapshot()))
    {
      removal := NothingRemoved;
      if workingDirTemporary {
        if workingDir.None? {
          return RemovalRaised;
        }
        removal := Removed(workingDir.value);
        workingDirTemporary := false;
      }
    }

    /** `refresh_the_arguments`: run passes while the last one reported a change.
        An exception from a rule ends the loop and is returned in `err`. */
    method RefreshTheArguments(env: Env) returns (err: Option<Error>, calls: seq<Call>)
      requires Sane(env) && Inv(Snapshot())
      modifies this
      ensures var r := Refresh(old(Snapshot()), env);
        Snapshot() == r.facts && err == r.error && calls == r.calls
    {
      ghost var target := Refresh(Snapshot(), env);
      err := None;
      calls := [];
      var change := true;
      while change
        invariant Inv(Snapshot())
        invariant change ==>
          && Refresh(Snapshot(), env).facts == target.facts
          && Refresh(Snapshot(), env).error == target.error
          && calls + Refresh(Snapshot(), env).calls == target.calls
        invariant !change ==> Snapshot() == target.facts && target.error.None? && calls == target.calls
        decreases Unset(Snapshot()), change
      {
        ghost var before := Snapshot();
        var outcome, c := OrChainFrom(1, env);
        calls := calls + c;
        match outcome
        case Raised(e) =>
          err := Some(e);
          return;
        case Changed =>
          PassProgress(before, env);
        case Unchanged =>
          IdlePassKeepsFacts(before, env);
          change := false;
      }
    }

    /** The `or` chain of the loop body from rule `k` on: run rule `k`, and
        only when it returned False, the rules after it. One iteration of the
        loop is the chain from rule 1. */
    method OrChainFrom(k: nat, env: Env) returns (outcome: Outcome, calls: seq<Call>)
      requires 1 <= k <= 13
      modifies this
      ensures Step(Snapshot(), outcome, calls) == PassFrom(k, old(Snapshot()), env)
      decreases 13 - k
    {
      if k == 13 {
        return Unchanged, [];
      }
      outcome, calls := RunRule(k, env);
      if outcome.Unchanged? {
        var rest;
        outcome, rest := OrChainFrom(k + 1, env);
        calls := calls + rest;
      }
    }

    /** Rule `k` of the chain. */
    method RunRule(k: nat, env: Env) returns (outcome: Outcome, calls: seq<Call>)
      requires 1 <= k <= 12
      modifies this
      ensures Step(Snapshot(), outcome, calls) == Apply(k, old(Snapshot()), env)
    {
      match k
      case 1 => outcome, calls := ParseRepoNameFullNameAndNamespace();
      case 2 => outcome, calls := ParseGitRepoFromWorkingDir(env);
      case 3 => outcome, calls := ParseGitProjectFromRepoNamespaceAndGitProject(env);
      case 4 => outcome, calls := ParseGitServiceFromGitProject();
      case 5 => outcome, calls := ParseRefFromGitRepo();
      case 6 => outcome, calls := ParseWorkingDirFromGitRepo();
      case 7 => outcome, calls := ParseGitRepoFromGitUrl(env);
      case 8 => outcome, calls := ParseGitUrlFromGitProject();
      case 9 => outcome, calls := ParseRepoNameFromGitProject();
      case 10 => outcome, calls := ParseNamespaceFromGitProject();
      case 11 => outcome, calls := ParseGitUrlFromGitRepo();
      case 12 => outcome, calls := ParseNamespaceFromGitUrl(env);
    }

    /** Rule 1, `_parse_repo_name_full_name_and_namespace`. */
    method ParseRepoNameFullNameAndNamespace() returns (outcome: Outcome, calls: seq<Call>)
      modifies this
      ensures Step(Snapshot(), outcome, calls) == IdentityRules.ParseFullName(old(Snapshot()))
    {
      var change := false;
      calls := [];
      if Truthy(repoName) && Truthy(namespace) && !Truthy(fullName) {
        fullName := Some(namespace.value + "/" + repoName.value);
        change := true;
      }
      if Truthy(fullName) && !Truthy(namespace) {
        namespace := Some(Text.Split(fullName.value)[0]);
        change := true;
      }
      if Truthy(fullName) && !Truthy(repoName) {
        var parts := Text.Split(fullName.value);
        if |parts| < 2 {
          return Raised(NoSecondComponent(fullName.value)), calls;
        }
        repoName := Some(parts[1]);
        change := true;
      }
      outcome := if change then Changed else Unchanged;
    }

    /** Rule 2, `_parse_git_repo_from_working_dir`. */
    method ParseGitRepoFromWorkingDir(env: Env) returns (outcome: Outcome, calls: seq<Call>)
      modifies this
      ensures Step(Snapshot(), outcome, calls) == IdentityRules.ParseGitRepoFromWorkingDir(old(Snapshot()), env)
    {
      outcome, calls := Unchanged, [];
      if Truthy(workingDir) && gitRepo.None? {
        var dir := workingDir.value;
        calls := [IsGitRepo(dir)];
        var repo: Option<GitRepo>;
        var call: Call;
        if env.isGitRepo(dir) {
          call := OpenRepo(dir);
          repo := env.openRepo(dir);
        } else if Truthy(gitUrl) && !offline {
          call := CloneInto(gitUrl.value, dir);
          repo := env.cloneInto(gitUrl.value, dir);
        } else {
          return;
        }
        calls := calls + [call];
        if repo.None? {
          return Raised(CallRaised(call)), calls;
        }
        gitRepo := repo;
        outcome := Changed;
      }
    }

    /** Rule 3, `_parse_git_project_from_repo_namespace_and_git_project`. */
    method ParseGitProjectFromRepoNamespaceAndGitProject(env: Env) returns (outcome: Outcome, calls: seq<Call>)
      modifies this
      ensures Step(Snapshot(), outcome, calls) == IdentityRules.ParseGitProject(old(Snapshot()), env)
    {
      outcome, calls := Unchanged, [];
      if Truthy(repoName) && Truthy(namespace) && gitService.Some? && gitProject.None? && !offline {
        var call := GetProject(gitService.value, namespace.value, repoName.value);
        calls := [call];
        var project := env.getProject(gitService.value, namespace.value, repoName.value);
        if project.None? {
          return Raised(CallRaised(call)), calls;
        }
        gitProject := project;
        outcome := Changed;
      }
    }

    /** Rule 4, `_parse_git_service_from_git_project`. */
    method ParseGitServiceFromGitProject() returns (outcome: Outcome, calls: seq<Call>)
      modifies this
      ensures Step(Snapshot(), outcome, calls) == IdentityRules.ParseGitService(old(Snapshot()))
    {
      outcome, calls := Unchanged, [];
      if gitProject.Some? && gitService.None? && !offline {
        gitService := Some(gitProject.value.service);
        outcome := Changed;
      }
    }

    /** Rule 5, `_parse_ref_from_git_repo`. */
    method ParseRefFromGitRepo() returns (outcome: Outcome, calls: seq<Call>)
      modifies this
      ensures Step(Snapshot(), outcome, calls) == IdentityRules.ParseRef(old(Snapshot()))
    {
      outcome, calls := Unchanged, [];
      if gitRepo.Some? && !Truthy(ref) {
        ref := Ref();
        outcome := if ref.Some? then Changed else Unchanged;
      }
    }

    /** Rule 6, `_parse_working_dir_from_git_repo`. */
    method ParseWorkingDirFromGitRepo() returns (outcome: Outcome, calls: seq<Call>)
      modifies this
      ensures Step(Snapshot(), outcome, calls) == IdentityRules.ParseWorkingDir(old(Snapshot()))
    {
      outcome, calls := Unchanged, [];
      if gitRepo.Some? && !Truthy(workingDir) {
        workingDir := Some(gitRepo.value.workingDir);
        outcome := Changed;
      }
    }

    /** Rule 7, `_parse_git_repo_from_git_url`. */
    method ParseGitRepoFromGitUrl(env: Env) returns (outcome: Outcome, calls: seq<Call>)
      modifies this
      ensures Step(Snapshot(), outcome, calls) == IdentityRules.ParseGitRepoFromGitUrl(old(Snapshot()), env)
    {
      outcome, calls := Unchanged, [];
      if Truthy(gitUrl) && !Truthy(workingDir) && gitRepo.None? && !offline {
        var call := CloneTemp(gitUrl.value);
        calls := [call];
        var repo := env.cloneTemp(gitUrl.value);
        if repo.None? {
          return Raised(CallRaised(call)), calls;
        }
        gitRepo := repo;
        workingDirTemporary := true;
        outcome := Changed;
      }
    }

    /** Rule 8, `_parse_git_url_from_git_project`. */
    method ParseGitUrlFromGitProject() returns (outcome: Outcome, calls: seq<Call>)
      modifies this
      ensures Step(Snapshot(), outcome, calls) == IdentityRules.ParseGitUrlFromProject(old(Snapshot()))
    {
      outcome, calls := Unchanged, [];
      if gitProject.Some? && !Truthy(gitUrl) && !offline {
        calls := [GetGitUrls];
        var urls := gitProject.value.gitUrls;
        if "git" !in urls {
          return Raised(NoGitUrl), calls;
        }
        gitUrl := Some(urls["git"]);
        outcome := Changed;
      }
    }

    /** Rule 9, `_parse_repo_name_from_git_project`. */
    method ParseRepoNameFromGitProject() returns (outcome: Outcome, calls: seq<Call>)
      modifies this
      ensures Step(Snapshot(), outcome, calls) == IdentityRules.ParseRepoNameFromProject(old(Snapshot()))
    {
      outcome, calls := Unchanged, [];
      if gitProject.Some? && !Truthy(repoName) {
        repoName := Some(gitProject.value.repo);
        outcome := Changed;
      }
    }

    /** Rule 10, `_parse_namespace_from_git_project`. */
    method ParseNamespaceFromGitProject() returns (outcome: Outcome, calls: seq<Call>)
      modifies this
      ensures Step(Snapshot(), outcome, calls) == IdentityRules.ParseNamespaceFromProject(old(Snapshot()))
    {
      outcome, calls := Unchanged, [];
      if gitProject.Some? && !Truthy(namespace) {
        namespace := Some(gitProject.value.namespace);
        outcome := Changed;
      }
    }

    /** Rule 11, `_parse_git_url_from_git_repo`. */
    method ParseGitUrlFromGitRepo() returns (outcome: Outcome, calls: seq<Call>)
      modifies this
      ensures Step(Snapshot(), outcome, calls) == IdentityRules.ParseGitUrlFromRepo(old(Snapshot()))
    {
      outcome, calls := Unchanged, [];
      if gitRepo.Some? && !Truthy(gitUrl) {
        var origin := gitRepo.value.origin;
        if origin.None? {
          return Raised(NoOriginRemote), calls;
        }
        if |origin.value| == 0 {
          return Raised(NoRemoteUrl), calls;
        }
        gitUrl := Some(origin.value[0]);
        outcome := Changed;
      }
    }

    /** Rule 12, `_parse_namespace_from_git_url`. */
    method ParseNamespaceFromGitUrl(env: Env) returns (outcome: Outcome, calls: seq<Call>)
      modifies this
      ensures Step(Snapshot(), outcome, calls) == IdentityRules.ParseNamespaceFromUrl(old(Snapshot()), env)
    {
      outcome, calls := Unchanged, [];
      if Truthy(gitUrl) && (!Truthy(namespace) || !Truthy(repoName)) {
        calls := [ParseUrl(gitUrl.value)];
        var (parsedNamespace, parsedRepo) := env.parseUrl(gitUrl.value);
        if parsedNamespace == namespace && parsedRepo == repoName {
          return;
        }
        namespace, repoName := parsedNamespace, parsedRepo;
        outcome := Changed;
      }
    }
  }
}
