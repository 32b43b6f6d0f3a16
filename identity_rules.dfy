/**
 * The identity-resolution rules of `LocalProject` (packit/local_project.py) as
 * functions on a snapshot of the project's fields.
 *
 * Every collaborator (git, the forge client, the URL parser, the filesystem
 * and the HTTP probe) is an oracle in `Env`. An oracle that returns `None`
 * stands for a call that raised; the exception is not caught inside the loop,
 * so it ends the resolution. Every rule also reports the collaborator calls it
 * made, in order, so that "offline never touches the network" can be stated.
 */
module IdentityRules {
  import opened Base
  import opened Text

  /** The HEAD of a local repository: detached at a commit, or on a branch. */
  datatype Head = Detached(commit: string) | OnBranch(branch: string)

  /** What the rules read of a `git.Repo`: its working tree, HEAD, local
      branches and the URLs of the remote named `origin` (`None`: no such remote). */
  datatype GitRepo = GitRepo(workingDir: string, head: Head, branches: set<string>, origin: Option<seq<string>>)

  /** An `ogr` service handle (credentials and endpoint); only its identity matters. */
  datatype GitService = GitService(id: nat)

  /** What the rules read of an `ogr` project handle. */
  datatype GitProject = GitProject(service: GitService, namespace: string, repo: string, gitUrls: map<string, string>)

  /** The collaborator calls the code makes. */
  datatype Call =
    | IsGitRepo(dir: string)
    | OpenRepo(dir: string)
    | CloneInto(url: string, dir: string)
    | CloneTemp(url: string)
    | GetProject(service: GitService, namespace: string, repo: string)
    | GetGitUrls
    | ParseUrl(url: string)
    | IsDir(path: string)
    | Probe(url: string)

  /** Calls that reach the network: cloning, querying the forge, probing a URL. */
  predicate Remote(c: Call) {
    c.CloneInto? || c.CloneTemp? || c.GetProject? || c.GetGitUrls? || c.Probe?
  }

  predicate LocalOnly(calls: seq<Call>) {
    forall i :: 0 <= i < |calls| ==> !Remote(calls[i])
  }

  /** What `requests.head` did: answered (with `res.ok`), raised an exception
      `_is_url` catches (`BaseHTTPError`), or raised one it does not catch. */
  datatype ProbeAnswer = Responded(ok: bool) | HttpError | TransportError

  /** The collaborators, as oracles. `None` from an oracle means the call raised. */
  datatype Env = Env(
    isGitRepo: string -> bool,                                // packit.utils.is_git_repo
    openRepo: string -> Option<GitRepo>,                      // git.Repo(path=...)
    cloneInto: (string, string) -> Option<GitRepo>,           // get_repo(url=..., directory=...)
    cloneTemp: string -> Option<GitRepo>,                     // get_repo(url=...), into a new temporary directory
    getProject: (GitService, string, string) -> Option<GitProject>, // service.get_project(repo=..., namespace=...)
    parseUrl: string -> (Option<string>, Option<string>),     // get_namespace_and_repo_name
    isDir: string -> bool,                                    // os.path.isdir
    probe: string -> ProbeAnswer)                             // requests.head

  /** Why the resolution or the constructor raised. */
  datatype Error =
    | CallRaised(call: Call)                // a collaborator raised
    | NoSecondComponent(fullName: string)   // `full_name.split("/")[1]` raised IndexError
    | NoGitUrl                              // `get_git_urls()["git"]` raised KeyError
    | NoOriginRemote                        // `git_repo.remote()` found no remote named origin
    | NoRemoteUrl                           // `list(...urls)[0]` on an empty list
    | NoGitRepoToCheckout                   // `self.git_repo.branches` with `git_repo` None

  /** The fields of a `LocalProject`. */
  datatype Facts = Facts(
    gitRepo: Option<GitRepo>,
    workingDir: Option<string>,
    ref: Option<string>,
    gitProject: Option<GitProject>,
    gitService: Option<GitService>,
    gitUrl: Option<string>,
    fullName: Option<string>,
    namespace: Option<string>,
    repoName: Option<string>,
    offline: bool,
    workingDirTemporary: bool)

  /** What a rule returned: True, False, or the exception it raised. */
  datatype Outcome = Changed | Unchanged | Raised(error: Error)

  /** The fields after a rule (or a pass), its outcome and the calls it made. */
  datatype Step = Step(facts: Facts, outcome: Outcome, calls: seq<Call>)

  /** `_get_ref_from_git_repo`: the commit hash when HEAD is detached, else the branch. */
  function RefOf(repo: GitRepo): string {
    match repo.head
    case Detached(commit) => commit
    case OnBranch(branch) => branch
  }

  /** Rule 1, `_parse_repo_name_full_name_and_namespace` (three independent ifs). */
  function ParseFullName(s: Facts): (r: Step)
    ensures Truthy(s.fullName) ==> r.facts.fullName == s.fullName
    ensures Truthy(s.namespace) && Truthy(s.repoName) ==>
      && r.facts == (if Truthy(s.fullName) then s else s.(fullName := Some(s.namespace.value + "/" + s.repoName.value)))
      && r.outcome == (if Truthy(s.fullName) then Unchanged else Changed)
    ensures Truthy(s.fullName) && !Truthy(s.namespace) ==> r.facts.namespace == Some(Split(s.fullName.value)[0])
    ensures Truthy(s.fullName) && !Truthy(s.repoName) ==>
      if |Split(s.fullName.value)| < 2 then r.outcome == Raised(NoSecondComponent(s.fullName.value))
      else r.facts.repoName == Some(Split(s.fullName.value)[1]) && r.outcome == Changed
    ensures !Truthy(s.fullName) && !(Truthy(s.namespace) && Truthy(s.repoName)) ==> r.facts == s && r.outcome == Unchanged
    ensures r.calls == []
  {
    var join := Truthy(s.repoName) && Truthy(s.namespace) && !Truthy(s.fullName);
    var s1 := if join then s.(fullName := Some(s.namespace.value + "/" + s.repoName.value)) else s;
    var nsFromFull := Truthy(s1.fullName) && !Truthy(s1.namespace);
    var s2 := if nsFromFull then s1.(namespace := Some(Split(s1.fullName.value)[0])) else s1;
    var repoFromFull := Truthy(s2.fullName) && !Truthy(s2.repoName);
    if !repoFromFull then Step(s2, if join || nsFromFull then Changed else Unchanged, [])
    else if |Split(s2.fullName.value)| < 2 then Step(s2, Raised(NoSecondComponent(s2.fullName.value)), [])
    else Step(s2.(repoName := Some(Split(s2.fullName.value)[1])), Changed, [])
  }

  /** A repository handle obtained by `call`, or the exception it raised. */
  function WithRepo(s: Facts, calls: seq<Call>, call: Call, repo: Option<GitRepo>): Step {
    match repo
    case Some(r) => Step(s.(gitRepo := Some(r)), Changed, calls + [call])
    case None => Step(s, Raised(CallRaised(call)), calls + [call])
  }

  /** Rule 2, `_parse_git_repo_from_working_dir`: open the directory, or clone into it. */
  function ParseGitRepoFromWorkingDir(s: Facts, env: Env): Step {
    if Truthy(s.workingDir) && s.gitRepo.None? then
      var dir := s.workingDir.value;
      if env.isGitRepo(dir) then WithRepo(s, [IsGitRepo(dir)], OpenRepo(dir), env.openRepo(dir))
      else if Truthy(s.gitUrl) && !s.offline then
        WithRepo(s, [IsGitRepo(dir)], CloneInto(s.gitUrl.value, dir), env.cloneInto(s.gitUrl.value, dir))
      else Step(s, Unchanged, [IsGitRepo(dir)])
    else Step(s, Unchanged, [])
  }

  /** Rule 3, `_parse_git_project_from_repo_namespace_and_git_project`. */
  function ParseGitProject(s: Facts, env: Env): Step {
    if Truthy(s.repoName) && Truthy(s.namespace) && s.gitService.Some? && s.gitProject.None? && !s.offline then
      var call := GetProject(s.gitService.value, s.namespace.value, s.repoName.value);
      match env.getProject(s.gitService.value, s.namespace.value, s.repoName.value)
      case Some(p) => Step(s.(gitProject := Some(p)), Changed, [call])
      case None => Step(s, Raised(CallRaised(call)), [call])
    else Step(s, Unchanged, [])
  }

  /** Rule 4, `_parse_git_service_from_git_project`. */
  function ParseGitService(s: Facts): Step {
    if s.gitProject.Some? && s.gitService.None? && !s.offline then
      Step(s.(gitService := Some(s.gitProject.value.service)), Changed, [])
    else Step(s, Unchanged, [])
  }

  /** Rule 5, `_parse_ref_from_git_repo`. It reports a change when the ref it
      read is not None, which a git HEAD always provides. */
  function ParseRef(s: Facts): (r: Step)
    ensures r.outcome == Changed <==> s.gitRepo.Some? && !Truthy(s.ref)
    ensures r.outcome == Changed ==> match s.gitRepo.value.head
      case Detached(c) => r.facts == s.(ref := Some(c))
      case OnBranch(b) => r.facts == s.(ref := Some(b))
    ensures r.outcome != Changed ==> r.facts == s && r.outcome == Unchanged
  {
    if s.gitRepo.Some? && !Truthy(s.ref) then
      Step(s.(ref := Some(RefOf(s.gitRepo.value))), Changed, [])
    else Step(s, Unchanged, [])
  }

  /** Rule 6, `_parse_working_dir_from_git_repo`. */
  function ParseWorkingDir(s: Facts): Step {
    if s.gitRepo.Some? && !Truthy(s.workingDir) then
      Step(s.(workingDir := Some(s.gitRepo.value.workingDir)), Changed, [])
    else Step(s, Unchanged, [])
  }

  /** Rule 7, `_parse_git_repo_from_git_url`: clone into a new temporary directory.
      The flag is set only after the clone returned. */
  function ParseGitRepoFromGitUrl(s: Facts, env: Env): Step {
    if Truthy(s.gitUrl) && !Truthy(s.workingDir) && s.gitRepo.None? && !s.offline then
      var call := CloneTemp(s.gitUrl.value);
      match env.cloneTemp(s.gitUrl.value)
      case Some(r) => Step(s.(gitRepo := Some(r), workingDirTemporary := true), Changed, [call])
      case None => Step(s, Raised(CallRaised(call)), [call])
    else Step(s, Unchanged, [])
  }

  /** Rule 8, `_parse_git_url_from_git_project`: the "git" entry of `get_git_urls()`. */
  function ParseGitUrlFromProject(s: Facts): Step {
    if s.gitProject.Some? && !Truthy(s.gitUrl) && !s.offline then
      var urls := s.gitProject.value.gitUrls;
      if "git" in urls then Step(s.(gitUrl := Some(urls["git"])), Changed, [GetGitUrls])
      else Step(s, Raised(NoGitUrl), [GetGitUrls])
    else Step(s, Unchanged, [])
  }

  /** Rule 9, `_parse_repo_name_from_git_project`. */
  function ParseRepoNameFromProject(s: Facts): Step {
    if s.gitProject.Some? && !Truthy(s.repoName) then
      Step(s.(repoName := Some(s.gitProject.value.repo)), Changed, [])
    else Step(s, Unchanged, [])
  }

  /** Rule 10, `_parse_namespace_from_git_project`. */
  function ParseNamespaceFromProject(s: Facts): Step {
    if s.gitProject.Some? && !Truthy(s.namespace) then
      Step(s.(namespace := Some(s.gitProject.value.namespace)), Changed, [])
    else Step(s, Unchanged, [])
  }

  /** Rule 11, `_parse_git_url_from_git_repo`: the first URL of the origin remote. */
  function ParseGitUrlFromRepo(s: Facts): Step {
    if s.gitRepo.Some? && !Truthy(s.gitUrl) then
      match s.gitRepo.value.origin
      case None => Step(s, Raised(NoOriginRemote), [])
      case Some(urls) =>
        if |urls| == 0 then Step(s, Raised(NoRemoteUrl), [])
        else Step(s.(gitUrl := Some(urls[0])), Changed, [])
    else Step(s, Unchanged, [])
  }

  /** Rule 12, `_parse_namespace_from_git_url`: writes both fields unless the
      parsed pair equals the stored pair. */
  function ParseNamespaceFromUrl(s: Facts, env: Env): (r: Step)
    ensures r.outcome == Changed <==>
      Truthy(s.gitUrl) && (!Truthy(s.namespace) || !Truthy(s.repoName))
      && env.parseUrl(s.gitUrl.value) != (s.namespace, s.repoName)
    ensures r.outcome == Changed ==>
      r.facts == s.(namespace := env.parseUrl(s.gitUrl.value).0, repoName := env.parseUrl(s.gitUrl.value).1)
    ensures r.outcome != Changed ==> r.facts == s && r.outcome == Unchanged
    // a repository name the caller supplied is overwritten when the namespace
    // is missing and the URL names another repository
    ensures Truthy(s.gitUrl) && !Truthy(s.namespace) && Truthy(s.repoName) && env.parseUrl(s.gitUrl.value).1 != s.repoName ==>
      r.outcome == Changed && r.facts.repoName != s.repoName
  {
    if Truthy(s.gitUrl) && (!Truthy(s.namespace) || !Truthy(s.repoName)) then
      var parsed := env.parseUrl(s.gitUrl.value);
      if parsed.0 == s.namespace && parsed.1 == s.repoName then Step(s, Unchanged, [ParseUrl(s.gitUrl.value)])
      else Step(s.(namespace := parsed.0, repoName := parsed.1), Changed, [ParseUrl(s.gitUrl.value)])
    else Step(s, Unchanged, [])
  }

  /** Rule `k` of `refresh_the_arguments`, in the order the `or` chain lists them. */
  function Apply(k: nat, s: Facts, env: Env): Step
    requires 1 <= k <= 12
  {
    match k
    case 1 => ParseFullName(s)
    case 2 => ParseGitRepoFromWorkingDir(s, env)
    case 3 => ParseGitProject(s, env)
    case 4 => ParseGitService(s)
    case 5 => ParseRef(s)
    case 6 => ParseWorkingDir(s)
    case 7 => ParseGitRepoFromGitUrl(s, env)
    case 8 => ParseGitUrlFromProject(s)
    case 9 => ParseRepoNameFromProject(s)
    case 10 => ParseNamespaceFromProject(s)
    case 11 => ParseGitUrlFromRepo(s)
    case 12 => ParseNamespaceFromUrl(s, env)
  }

  /** The calls of `first`, then the rest of the pass. */
  function Then(first: Step, rest: Step): Step {
    Step(rest.facts, rest.outcome, first.calls + rest.calls)
  }

  /** Rules `k..12` of one pass: `or` stops at the first rule that does not return False. */
  function PassFrom(k: nat, s: Facts, env: Env): Step
    requires 1 <= k <= 13
    decreases 13 - k
  {
    if k == 13 then Step(s, Unchanged, [])
    else
      var st := Apply(k, s, env);
      if st.outcome.Unchanged? then Then(st, PassFrom(k + 1, st.facts, env)) else st
  }

  /** One iteration of the `while change:` loop. */
  function Pass(s: Facts, env: Env): Step {
    PassFrom(1, s, env)
  }

  // ---------------------------------------------------------------------------
  // Which rule a pass runs

  /** The first rule at or after `k` that does not return False on `s`; 13 if none. */
  function FirstActiveFrom(k: nat, s: Facts, env: Env): (r: nat)
    requires 1 <= k <= 13
    ensures k <= r <= 13
    ensures r <= 12 ==> !Apply(r, s, env).outcome.Unchanged?
    decreases 13 - k
  {
    if k == 13 then 13
    else if Apply(k, s, env).outcome.Unchanged? then FirstActiveFrom(k + 1, s, env)
    else k
  }

  /** Every rule before the first active one returns False. */
  lemma {:induction false} BeforeFirstActiveIsIdle(k: nat, j: nat, s: Facts, env: Env)
    requires 1 <= k <= j <= 12 && j < FirstActiveFrom(k, s, env)
    ensures Apply(j, s, env).outcome.Unchanged?
    decreases 13 - k
  {
    if j > k {
      BeforeFirstActiveIsIdle(k + 1, j, s, env);
    }
  }

  /** The calls rules `from..to-1` make on `s` when none of them fires. */
  function CallsOf(from: nat, to: nat, s: Facts, env: Env): seq<Call>
    requires 1 <= from <= to <= 13
    decreases 13 - from
  {
    if from == to then [] else Apply(from, s, env).calls + CallsOf(from + 1, to, s, env)
  }

  /** A rule that returns False changes no field. */
  lemma IdleRuleKeepsFacts(k: nat, s: Facts, env: Env)
    requires 1 <= k <= 12
    requires Apply(k, s, env).outcome.Unchanged?
    ensures Apply(k, s, env).facts == s
  {
  }

  /** A pass from rule `k` is the first rule at or after `k` that does not
      return False, run on the unchanged fields, after the calls of the rules before it. */
  lemma {:induction false} PassFromIsFirstActive(k: nat, s: Facts, env: Env)
    requires 1 <= k <= 13
    ensures var f := FirstActiveFrom(k, s, env);
      PassFrom(k, s, env) ==
        if f == 13 then Step(s, Unchanged, CallsOf(k, 13, s, env))
        else Step(Apply(f, s, env).facts, Apply(f, s, env).outcome,
                  CallsOf(k, f, s, env) + Apply(f, s, env).calls)
    decreases 13 - k
  {
    if k < 13 {
      var st := Apply(k, s, env);
      if st.outcome.Unchanged? {
        IdleRuleKeepsFacts(k, s, env);
        assert PassFrom(k, s, env) == Then(st, PassFrom(k + 1, s, env));
        PassFromIsFirstActive(k + 1, s, env);
        var f := FirstActiveFrom(k + 1, s, env);
        assert FirstActiveFrom(k, s, env) == f;
        assert CallsOf(k, f, s, env) == st.calls + CallsOf(k + 1, f, s, env);
        if f < 13 {
          var last := Apply(f, s, env);
          assert PassFrom(k + 1, s, env) == Step(last.facts, last.outcome, CallsOf(k + 1, f, s, env) + last.calls);
          CallsRegroup(st.calls, CallsOf(k + 1, f, s, env), last.calls);
        }
      } else {
        assert FirstActiveFrom(k, s, env) == k;
        assert PassFrom(k, s, env) == st;
        assert CallsOf(k, k, s, env) == [];
      }
    }
  }

  /** Each pass tries the rules in the listed order and stops at the first that
      returns True or raises; it returns False exactly when every rule does. */
  lemma PassStopsAtFirstActiveRule(s: Facts, env: Env)
    ensures var f := FirstActiveFrom(1, s, env);
      && (Pass(s, env).outcome.Unchanged? <==> forall k :: 1 <= k <= 12 ==> Apply(k, s, env).outcome.Unchanged?)
      && (f <= 12 ==> Pass(s, env).facts == Apply(f, s, env).facts && Pass(s, env).outcome == Apply(f, s, env).outcome)
      && (f <= 12 ==> Pass(s, env).calls == CallsOf(1, f, s, env) + Apply(f, s, env).calls)
      && (f == 13 ==> Pass(s, env).facts == s)
  {
    PassFromIsFirstActive(1, s, env);
    forall k | 1 <= k < FirstActiveFrom(1, s, env)
      ensures Apply(k, s, env).outcome.Unchanged?
    {
      BeforeFirstActiveIsIdle(1, k, s, env);
    }
  }

  // ---------------------------------------------------------------------------
  // Termination

  /** Python's truth value of each of the nine identity fields, as a count of the false ones. */
  function Unset(s: Facts): (n: nat)
    ensures n <= 9
  {
    (if s.gitRepo.None? then 1 else 0) + (if !Truthy(s.workingDir) then 1 else 0)
    + (if !Truthy(s.ref) then 1 else 0) + (if s.gitProject.None? then 1 else 0)
    + (if s.gitService.None? then 1 else 0) + (if !Truthy(s.gitUrl) then 1 else 0)
    + (if !Truthy(s.fullName) then 1 else 0) + (if !Truthy(s.namespace) then 1 else 0)
    + (if !Truthy(s.repoName) then 1 else 0)
  }

  /** A repository whose working directory, HEAD and first origin URL are non-empty. */
  predicate RepoSane(r: GitRepo) {
    && r.workingDir != ""
    && RefOf(r) != ""
    && (r.origin.Some? && |r.origin.value| > 0 ==> r.origin.value[0] != "")
  }

  /** A project whose namespace, name and "git" URL are non-empty. */
  predicate ProjectSane(p: GitProject) {
    p.namespace != "" && p.repo != "" && ("git" in p.gitUrls ==> p.gitUrls["git"] != "")
  }

  /** Oracles that return non-empty values whenever they return. */
  ghost predicate Sane(env: Env) {
    && (forall d :: env.openRepo(d).Some? ==> RepoSane(env.openRepo(d).value))
    && (forall u, d :: env.cloneInto(u, d).Some? ==> RepoSane(env.cloneInto(u, d).value))
    && (forall u :: env.cloneTemp(u).Some? ==> RepoSane(env.cloneTemp(u).value))
    && (forall sv, n, r :: env.getProject(sv, n, r).Some? ==> ProjectSane(env.getProject(sv, n, r).value))
    && (forall u :: Truthy(env.parseUrl(u).0) && Truthy(env.parseUrl(u).1))
  }

  /** A `full_name` that rule 1 can split: the component it reads for a missing
      namespace or repository name exists and is non-empty. */
  predicate FullNameSplittable(s: Facts) {
    Truthy(s.fullName) ==>
      && (!Truthy(s.namespace) ==> Split(s.fullName.value)[0] != "")
      && (!Truthy(s.repoName) ==> |Split(s.fullName.value)| >= 2 && Split(s.fullName.value)[1] != "")
  }

  /** What the loop keeps, and what the caller must supply for it to end. */
  predicate Inv(s: Facts) {
    && (s.gitRepo.Some? ==> RepoSane(s.gitRepo.value))
    && (s.gitProject.Some? ==> ProjectSane(s.gitProject.value))
    && FullNameSplittable(s)
  }

  /** A rule that returns True sets at least one unset field and keeps `Inv`. */
  lemma RuleProgress(k: nat, s: Facts, env: Env)
    requires 1 <= k <= 12
    requires Sane(env) && Inv(s)
    requires Apply(k, s, env).outcome == Changed
    ensures Unset(Apply(k, s, env).facts) < Unset(s)
    ensures Inv(Apply(k, s, env).facts)
  {
    match k
    case 1 => Progress1(s, env);
    case 2 => Progress2(s, env);
    case 3 => Progress3(s, env);
    case 4 => Progress4(s, env);
    case 5 => Progress5(s, env);
    case 6 => Progress6(s, env);
    case 7 => Progress7(s, env);
    case 8 => Progress8(s, env);
    case 9 => Progress9(s, env);
    case 10 => Progress10(s, env);
    case 11 => Progress11(s, env);
    case 12 => Progress12(s, env);
  }

  lemma Progress1(s: Facts, env: Env)
    requires Sane(env) && Inv(s)
    requires ParseFullName(s).outcome == Changed
    ensures Unset(ParseFullName(s).facts) < Unset(s)
    ensures Inv(ParseFullName(s).facts)
  {
    var r := ParseFullName(s).facts;
    if Truthy(s.repoName) && Truthy(s.namespace) && !Truthy(s.fullName) {
      assert r == s.(fullName := Some(s.namespace.value + "/" + s.repoName.value));
    } else {
      var parts := Split(s.fullName.value);
      assert Truthy(s.fullName);
      if !Truthy(s.namespace) && !Truthy(s.repoName) {
        assert r == s.(namespace := Some(parts[0]), repoName := Some(parts[1]));
      } else if !Truthy(s.namespace) {
        assert r == s.(namespace := Some(parts[0]));
      } else {
        assert r == s.(repoName := Some(parts[1]));
      }
    }
  }

  lemma Progress2(s: Facts, env: Env)
    requires Sane(env) && Inv(s)
    requires ParseGitRepoFromWorkingDir(s, env).outcome == Changed
    ensures Unset(ParseGitRepoFromWorkingDir(s, env).facts) < Unset(s)
    ensures Inv(ParseGitRepoFromWorkingDir(s, env).facts)
  {
    var dir := s.workingDir.value;
    if env.isGitRepo(dir) {
      assert RepoSane(env.openRepo(dir).value);
      NewRepoProgress(s, env.openRepo(dir).value);
    } else {
      assert RepoSane(env.cloneInto(s.gitUrl.value, dir).value);
      NewRepoProgress(s, env.cloneInto(s.gitUrl.value, dir).value);
    }
  }

  /** Setting a missing repository to a sane one is progress. */
  lemma NewRepoProgress(s: Facts, r: GitRepo)
    requires Inv(s) && s.gitRepo.None? && RepoSane(r)
    ensures Unset(s.(gitRepo := Some(r))) < Unset(s)
    ensures Inv(s.(gitRepo := Some(r)))
  {
  }

  lemma Progress3(s: Facts, env: Env)
    requires Sane(env) && Inv(s)
    requires ParseGitProject(s, env).outcome == Changed
    ensures Unset(ParseGitProject(s, env).facts) < Unset(s)
    ensures Inv(ParseGitProject(s, env).facts)
  {
  }

  lemma Progress4(s: Facts, env: Env)
    requires Sane(env) && Inv(s)
    requires ParseGitService(s).outcome == Changed
    ensures Unset(ParseGitService(s).facts) < Unset(s)
    ensures Inv(ParseGitService(s).facts)
  {
  }

  lemma Progress5(s: Facts, env: Env)
    requires Sane(env) && Inv(s)
    requires ParseRef(s).outcome == Changed
    ensures Unset(ParseRef(s).facts) < Unset(s)
    ensures Inv(ParseRef(s).facts)
  {
  }

  lemma Progress6(s: Facts, env: Env)
    requires Sane(env) && Inv(s)
    requires ParseWorkingDir(s).outcome == Changed
    ensures Unset(ParseWorkingDir(s).facts) < Unset(s)
    ensures Inv(ParseWorkingDir(s).facts)
  {
  }

  lemma Progress7(s: Facts, env: Env)
    requires Sane(env) && Inv(s)
    requires ParseGitRepoFromGitUrl(s, env).outcome == Changed
    ensures Unset(ParseGitRepoFromGitUrl(s, env).facts) < Unset(s)
    ensures Inv(ParseGitRepoFromGitUrl(s, env).facts)
  {
  }

  lemma Progress8(s: Facts, env: Env)
    requires Sane(env) && Inv(s)
    requires ParseGitUrlFromProject(s).outcome == Changed
    ensures Unset(ParseGitUrlFromProject(s).facts) < Unset(s)
    ensures Inv(ParseGitUrlFromProject(s).facts)
  {
  }

  lemma Progress9(s: Facts, env: Env)
    requires Sane(env) && Inv(s)
    requires ParseRepoNameFromProject(s).outcome == Changed
    ensures Unset(ParseRepoNameFromProject(s).facts) < Unset(s)
    ensures Inv(ParseRepoNameFromProject(s).facts)
  {
  }

  lemma Progress10(s: Facts, env: Env)
    requires Sane(env) && Inv(s)
    requires ParseNamespaceFromProject(s).outcome == Changed
    ensures Unset(ParseNamespaceFromProject(s).facts) < Unset(s)
    ensures Inv(ParseNamespaceFromProject(s).facts)
  {
  }

  lemma Progress11(s: Facts, env: Env)
    requires Sane(env) && Inv(s)
    requires ParseGitUrlFromRepo(s).outcome == Changed
    ensures Unset(ParseGitUrlFromRepo(s).facts) < Unset(s)
    ensures Inv(ParseGitUrlFromRepo(s).facts)
  {
  }

  lemma Progress12(s: Facts, env: Env)
    requires Sane(env) && Inv(s)
    requires ParseNamespaceFromUrl(s, env).outcome == Changed
    ensures Unset(ParseNamespaceFromUrl(s, env).facts) < Unset(s)
    ensures Inv(ParseNamespaceFromUrl(s, env).facts)
  {
    var parsed := env.parseUrl(s.gitUrl.value);
    assert Truthy(parsed.0) && Truthy(parsed.1);
  }

  /** A pass that returns True leaves fewer unset fields, so the loop ends. */
  lemma PassProgress(s: Facts, env: Env)
    requires Sane(env) && Inv(s)
    requires Pass(s, env).outcome == Changed
    ensures Unset(Pass(s, env).facts) < Unset(s)
    ensures Inv(Pass(s, env).facts)
  {
    PassStopsAtFirstActiveRule(s, env);
    RuleProgress(FirstActiveFrom(1, s, env), s, env);
  }

  /** A pass that returns False changes no field. */
  lemma IdlePassKeepsFacts(s: Facts, env: Env)
    requires Pass(s, env).outcome.Unchanged?
    ensures Pass(s, env).facts == s
  {
    PassStopsAtFirstActiveRule(s, env);
  }

  /** The whole `refresh_the_arguments`: the fields it leaves, the exception it
      raised if any, the number of passes and every collaborator call. */
  datatype Run = Run(facts: Facts, error: Option<Error>, passes: nat, calls: seq<Call>)

  /** `while change: change = <the or chain>`, starting with `change = True`. */
  function Refresh(s: Facts, env: Env): (r: Run)
    requires Sane(env) && Inv(s)
    ensures 1 <= r.passes <= Unset(s) + 1
    ensures r.error.None? ==> Inv(r.facts) && Pass(r.facts, env).outcome.Unchanged?
    decreases Unset(s)
  {
    var st := Pass(s, env);
    match st.outcome
    case Changed =>
      PassProgress(s, env);
      var rest := Refresh(st.facts, env);
      Run(rest.facts, rest.error, rest.passes + 1, st.calls + rest.calls)
    case Unchanged =>
      IdlePassKeepsFacts(s, env);
      Run(st.facts, None, 1, st.calls)
    case Raised(e) => Run(st.facts, Some(e), 1, st.calls)
  }

  // ---------------------------------------------------------------------------
  // What a rule may change

  /** `t` keeps every field that was set in `s`, except that a namespace or a
      repository name is kept only when both of them were set. */
  predicate Keeps(s: Facts, t: Facts) {
    && (s.gitRepo.Some? ==> t.gitRepo == s.gitRepo)
    && (Truthy(s.workingDir) ==> t.workingDir == s.workingDir)
    && (Truthy(s.ref) ==> t.ref == s.ref)
    && (s.gitProject.Some? ==> t.gitProject == s.gitProject)
    && (s.gitService.Some? ==> t.gitService == s.gitService)
    && (Truthy(s.gitUrl) ==> t.gitUrl == s.gitUrl)
    && (Truthy(s.fullName) ==> t.fullName == s.fullName)
    && (Truthy(s.namespace) && Truthy(s.repoName) ==> t.namespace == s.namespace && t.repoName == s.repoName)
    && t.offline == s.offline
    && (s.workingDirTemporary ==> t.workingDirTemporary)
  }

  lemma KeepsTransitive(s: Facts, t: Facts, u: Facts)
    requires Keeps(s, t) && Keeps(t, u)
    ensures Keeps(s, u)
  {
  }

  /** `t` differs from `s` only in fields that were unset in `s`. */
  predicate FillsOnly(s: Facts, t: Facts) {
    && (t.gitRepo != s.gitRepo ==> s.gitRepo.None?)
    && (t.workingDir != s.workingDir ==> !Truthy(s.workingDir))
    && (t.ref != s.ref ==> !Truthy(s.ref))
    && (t.gitProject != s.gitProject ==> s.gitProject.None?)
    && (t.gitService != s.gitService ==> s.gitService.None?)
    && (t.gitUrl != s.gitUrl ==> !Truthy(s.gitUrl))
    && (t.fullName != s.fullName ==> !Truthy(s.fullName))
    && (t.namespace != s.namespace ==> !Truthy(s.namespace))
    && (t.repoName != s.repoName ==> !Truthy(s.repoName))
  }

  /** Every rule but the last fills only unset fields; the last may overwrite a
      set namespace or repository name, but only when the other one is unset.
      Only rule 7 turns the temporary flag on, after cloning from the URL into
      a new directory while no working directory is known; no rule turns it off.
      Offline, no rule reaches the network or touches the service, the project
      or the flag. Only rule 1 writes `full_name`. */
  lemma RuleFrame(k: nat, s: Facts, env: Env)
    requires 1 <= k <= 12
    ensures var st := Apply(k, s, env);
      && Keeps(s, st.facts)
      && (k != 12 ==> FillsOnly(s, st.facts))
      && (k != 1 ==> st.facts.fullName == s.fullName)
      && (k != 7 ==> st.facts.workingDirTemporary == s.workingDirTemporary)
      && (st.facts.workingDirTemporary && !s.workingDirTemporary ==>
            && !Truthy(s.workingDir) && s.gitRepo.None? && Truthy(s.gitUrl) && !s.offline
            && st.facts.gitRepo.Some? && st.calls == [CloneTemp(s.gitUrl.value)])
      && (s.offline ==>
            && LocalOnly(st.calls)
            && st.facts.gitService == s.gitService
            && st.facts.gitProject == s.gitProject
            && st.facts.workingDirTemporary == s.workingDirTemporary)
  {
    RuleFramed(k, s, env);
  }

  /** The frame of rule `k`, as `RuleFrame` states it. */
  predicate Framed(k: nat, s: Facts, st: Step) {
    && Keeps(s, st.facts)
    && (k != 12 ==> FillsOnly(s, st.facts))
    && (k != 1 ==> st.facts.fullName == s.fullName)
    && (k != 7 ==> st.facts.workingDirTemporary == s.workingDirTemporary)
    && (st.facts.workingDirTemporary && !s.workingDirTemporary ==>
          && !Truthy(s.workingDir) && s.gitRepo.None? && Truthy(s.gitUrl) && !s.offline
          && st.facts.gitRepo.Some? && st.calls == [CloneTemp(s.gitUrl.value)])
    && (s.offline ==>
          && LocalOnly(st.calls)
          && st.facts.gitService == s.gitService
          && st.facts.gitProject == s.gitProject
          && st.facts.workingDirTemporary == s.workingDirTemporary)
  }

  lemma RuleFramed(k: nat, s: Facts, env: Env)
    requires 1 <= k <= 12
    ensures Framed(k, s, Apply(k, s, env))
  {
    match k
    case 1 => Frame1(s, env);
    case 2 => Frame2(s, env);
    case 3 => Frame3(s, env);
    case 4 => Frame4(s, env);
    case 5 => Frame5(s, env);
    case 6 => Frame6(s, env);
    case 7 => Frame7(s, env);
    case 8 => Frame8(s, env);
    case 9 => Frame9(s, env);
    case 10 => Frame10(s, env);
    case 11 => Frame11(s, env);
    case 12 => Frame12(s, env);
  }

  lemma Frame1(s: Facts, env: Env)
    ensures Framed(1, s, ParseFullName(s))
  {
  }

  lemma Frame2(s: Facts, env: Env)
    ensures Framed(2, s, ParseGitRepoFromWorkingDir(s, env))
  {
  }

  lemma Frame3(s: Facts, env: Env)
    ensures Framed(3, s, ParseGitProject(s, env))
  {
  }

  lemma Frame4(s: Facts, env: Env)
    ensures Framed(4, s, ParseGitService(s))
  {
  }

  lemma Frame5(s: Facts, env: Env)
    ensures Framed(5, s, ParseRef(s))
  {
  }

  lemma Frame6(s: Facts, env: Env)
    ensures Framed(6, s, ParseWorkingDir(s))
  {
  }

  lemma Frame7(s: Facts, env: Env)
    ensures Framed(7, s, ParseGitRepoFromGitUrl(s, env))
  {
  }

  lemma Frame8(s: Facts, env: Env)
    ensures Framed(8, s, ParseGitUrlFromProject(s))
  {
  }

  lemma Frame9(s: Facts, env: Env)
    ensures Framed(9, s, ParseRepoNameFromProject(s))
  {
  }

  lemma Frame10(s: Facts, env: Env)
    ensures Framed(10, s, ParseNamespaceFromProject(s))
  {
  }

  lemma Frame11(s: Facts, env: Env)
    ensures Framed(11, s, ParseGitUrlFromRepo(s))
  {
  }

  lemma Frame12(s: Facts, env: Env)
    ensures Framed(12, s, ParseNamespaceFromUrl(s, env))
  {
  }

  lemma CallsRegroup(a: seq<Call>, b: seq<Call>, c: seq<Call>)
    ensures a + (b + c) == (a + b) + c
  {
  }

  lemma LocalOnlyConcat(a: seq<Call>, b: seq<Call>)
    requires LocalOnly(a) && LocalOnly(b)
    ensures LocalOnly(a + b)
  {
    forall i | 0 <= i < |a + b| ensures !Remote((a + b)[i]) {
      if i >= |a| {
        assert (a + b)[i] == b[i - |a|];
      }
    }
  }

  /** Offline, the rules that do not fire make no network call either. */
  lemma {:induction false} OfflineCallsOf(from: nat, to: nat, s: Facts, env: Env)
    requires 1 <= from <= to <= 13
    requires s.offline
    ensures LocalOnly(CallsOf(from, to, s, env))
    decreases 13 - from
  {
    if from < to {
      RuleFrame(from, s, env);
      OfflineCallsOf(from + 1, to, s, env);
      LocalOnlyConcat(Apply(from, s, env).calls, CallsOf(from + 1, to, s, env));
    }
  }

  /** What one pass may change: the frame of the rule it stops at. */
  lemma PassFrame(s: Facts, env: Env)
    ensures var t := Pass(s, env);
      && Keeps(s, t.facts)
      && (t.facts.workingDirTemporary && !s.workingDirTemporary ==>
            && !Truthy(s.workingDir) && s.gitRepo.None? && Truthy(s.gitUrl) && !s.offline
            && t.facts.gitRepo.Some? && CloneTemp(s.gitUrl.value) in t.calls)
      && (Truthy(s.workingDir) ==> t.facts.workingDirTemporary == s.workingDirTemporary)
      && (s.offline ==>
            && LocalOnly(t.calls)
            && t.facts.gitService == s.gitService
            && t.facts.gitProject == s.gitProject
            && t.facts.workingDirTemporary == s.workingDirTemporary)
  {
    PassStopsAtFirstActiveRule(s, env);
    var f := FirstActiveFrom(1, s, env);
    if f <= 12 {
      RuleFrame(f, s, env);
      var t := Pass(s, env);
      if t.facts.workingDirTemporary && !s.workingDirTemporary {
        assert t.calls[|CallsOf(1, f, s, env)|] == CloneTemp(s.gitUrl.value);
      }
      if s.offline {
        OfflineCallsOf(1, f, s, env);
        LocalOnlyConcat(CallsOf(1, f, s, env), Apply(f, s, env).calls);
      }
    } else if s.offline {
      PassFromIsFirstActive(1, s, env);
      OfflineCallsOf(1, 13, s, env);
    }
  }

  // ---------------------------------------------------------------------------
  // Properties of a whole resolution

  /** A field set before the resolution keeps its value, except a namespace or
      repository name supplied without the other; the offline flag never changes
      and the temporary flag is never cleared. */
  lemma {:induction false} RefreshKeeps(s: Facts, env: Env)
    requires Sane(env) && Inv(s)
    ensures Keeps(s, Refresh(s, env).facts)
    decreases Unset(s)
  {
    var st := Pass(s, env);
    PassFrame(s, env);
    if st.outcome.Changed? {
      PassProgress(s, env);
      RefreshKeeps(st.facts, env);
      KeepsTransitive(s, st.facts, Refresh(st.facts, env).facts);
    }
  }

  /** A namespace and a repository name supplied together are never overwritten. */
  lemma SuppliedPairIsKept(s: Facts, env: Env)
    requires Sane(env) && Inv(s)
    requires Truthy(s.namespace) && Truthy(s.repoName)
    ensures Refresh(s, env).facts.namespace == s.namespace
    ensures Refresh(s, env).facts.repoName == s.repoName
  {
    RefreshKeeps(s, env);
  }

  /** Offline, the resolution never clones, never queries the forge and never
      probes a URL, and it leaves the service, the project and the temporary flag
      as they were. */
  lemma {:induction false} OfflineRefreshIsLocal(s: Facts, env: Env)
    requires Sane(env) && Inv(s) && s.offline
    ensures var r := Refresh(s, env);
      && LocalOnly(r.calls)
      && r.facts.gitService == s.gitService
      && r.facts.gitProject == s.gitProject
      && r.facts.workingDirTemporary == s.workingDirTemporary
    decreases Unset(s)
  {
    var st := Pass(s, env);
    PassFrame(s, env);
    if st.outcome.Changed? {
      PassProgress(s, env);
      OfflineRefreshIsLocal(st.facts, env);
      LocalOnlyConcat(st.calls, Refresh(st.facts, env).calls);
    }
  }

  /** The temporary flag ends up set only if it was, or if the resolution,
      online, cloned from the URL into a new directory. */
  lemma {:induction false} TemporaryOnlyAfterClone(s: Facts, env: Env)
    requires Sane(env) && Inv(s)
    ensures var r := Refresh(s, env);
      r.facts.workingDirTemporary ==>
        s.workingDirTemporary || (!s.offline && exists i :: 0 <= i < |r.calls| && r.calls[i].CloneTemp?)
    decreases Unset(s)
  {
    var st := Pass(s, env);
    PassFrame(s, env);
    var r := Refresh(s, env);
    if st.outcome.Changed? && r.facts.workingDirTemporary && !s.workingDirTemporary {
      PassProgress(s, env);
      TemporaryOnlyAfterClone(st.facts, env);
      var rest := Refresh(st.facts, env);
      assert r.calls == st.calls + rest.calls;
      if st.facts.workingDirTemporary {
        var i :| 0 <= i < |st.calls| && st.calls[i] == CloneTemp(s.gitUrl.value);
        assert r.calls[i].CloneTemp?;
      } else {
        var i :| 0 <= i < |rest.calls| && rest.calls[i].CloneTemp?;
        assert r.calls[|st.calls| + i].CloneTemp?;
      }
    }
  }

  /** With a working directory known from the start, the resolution never makes
      it temporary, even when it clones into it (rule 2). */
  lemma {:induction false} ExistingWorkingDirIsNotTemporary(s: Facts, env: Env)
    requires Sane(env) && Inv(s)
    requires Truthy(s.workingDir)
    ensures Refresh(s, env).facts.workingDirTemporary == s.workingDirTemporary
    decreases Unset(s)
  {
    var st := Pass(s, env);
    PassFrame(s, env);
    if st.outcome.Changed? {
      PassProgress(s, env);
      ExistingWorkingDirIsNotTemporary(st.facts, env);
    }
  }

  /** Resolving again after a resolution that raised nothing changes no field
      and takes a single pass. */
  lemma RefreshIsIdempotent(s: Facts, env: Env)
    requires Sane(env) && Inv(s)
    requires Refresh(s, env).error.None?
    ensures var r := Refresh(s, env);
      Refresh(r.facts, env).facts == r.facts && Refresh(r.facts, env).error.None? && Refresh(r.facts, env).passes == 1
  {
    var r := Refresh(s, env);
    IdlePassKeepsFacts(r.facts, env);
  }

  // ---------------------------------------------------------------------------
  // Single rules

  /** A `full_name` built by rule 1 from components without a slash splits back
      into the same components. */
  lemma FullNameSplitsBack(namespace: string, repo: string)
    requires '/' !in namespace && '/' !in repo
    ensures Split(namespace + "/" + repo) == [namespace, repo]
  {
    SplitAfterSlash(namespace, repo);
    SplitWithoutSlash(repo);
  }

  /** Why `FullNameSplittable` is required: an empty namespace and a `full_name`
      whose first component is empty make rule 1 report a change that changes
      nothing, so every pass returns True and the loop never ends. */
  lemma MalformedFullNameNeverSettles(s: Facts, env: Env)
    requires Truthy(s.fullName) && s.namespace == Some("") && Truthy(s.repoName)
    requires Split(s.fullName.value)[0] == ""
    ensures Pass(s, env) == Step(s, Changed, [])
  {
    var r := ParseFullName(s);
    assert r.facts == s.(namespace := Some(""));
    assert s.(namespace := Some("")) == s;
  }

  /** After a resolution that raised nothing, every rule is idle, so the fields
      are closed under the rules: a repository gives a working directory, a ref
      and a URL; a project gives both names (and online, a service and a URL);
      a URL or a `full_name` gives both names; both names give a `full_name`. */
  lemma ResolvedFactsAreClosed(s: Facts, env: Env)
    requires Sane(env) && Inv(s)
    requires Refresh(s, env).error.None?
    ensures var t := Refresh(s, env).facts;
      && (t.gitRepo.Some? ==> Truthy(t.workingDir) && Truthy(t.ref) && Truthy(t.gitUrl))
      && (t.gitProject.Some? ==> Truthy(t.namespace) && Truthy(t.repoName))
      && (t.gitProject.Some? && !t.offline ==> t.gitService.Some? && Truthy(t.gitUrl))
      && (Truthy(t.gitUrl) ==> Truthy(t.namespace) && Truthy(t.repoName))
      && (Truthy(t.fullName) ==> Truthy(t.namespace) && Truthy(t.repoName))
      && (Truthy(t.namespace) && Truthy(t.repoName) ==> Truthy(t.fullName))
      && (Truthy(t.gitUrl) && !Truthy(t.workingDir) && !t.offline ==> t.gitRepo.Some?)
  {
    var t := Refresh(s, env).facts;
    PassStopsAtFirstActiveRule(t, env);
    assert forall k :: 1 <= k <= 12 ==> Apply(k, t, env).outcome.Unchanged?;
    assert Apply(1, t, env).outcome.Unchanged?;
    assert Apply(4, t, env).outcome.Unchanged?;
    assert Apply(5, t, env).outcome.Unchanged?;
    assert Apply(6, t, env).outcome.Unchanged?;
    assert Apply(7, t, env).outcome.Unchanged?;
    assert Apply(8, t, env).outcome.Unchanged?;
    assert Apply(9, t, env).outcome.Unchanged?;
    assert Apply(10, t, env).outcome.Unchanged?;
    assert Apply(11, t, env).outcome.Unchanged?;
    assert Apply(12, t, env).outcome.Unchanged?;
  }

  /** A set `full_name` is the namespace, a slash and the repository name. */
  predicate FullNameJoined(s: Facts) {
    Truthy(s.fullName) ==>
      Truthy(s.namespace) && Truthy(s.repoName) && s.fullName.value == s.namespace.value + "/" + s.repoName.value
  }

  /** No rule breaks a joined `full_name`: rule 1 writes it only from both
      names, and the rules that write a name only do so while it is unset. */
  lemma RuleKeepsFullNameJoined(k: nat, s: Facts, env: Env)
    requires 1 <= k <= 12
    requires FullNameJoined(s)
    ensures FullNameJoined(Apply(k, s, env).facts)
  {
    RuleFrame(k, s, env);
  }

  lemma PassKeepsFullNameJoined(s: Facts, env: Env)
    requires FullNameJoined(s)
    ensures FullNameJoined(Pass(s, env).facts)
  {
    PassStopsAtFirstActiveRule(s, env);
    var f := FirstActiveFrom(1, s, env);
    if f <= 12 {
      RuleKeepsFullNameJoined(f, s, env);
    }
  }

  /** Started from fields whose `full_name`, if any, is joined from the two
      names (in particular, from fields with no `full_name`), the resolution
      keeps it joined, whether or not it raises. */
  lemma {:induction false} RefreshKeepsFullNameJoined(s: Facts, env: Env)
    requires Sane(env) && Inv(s)
    requires FullNameJoined(s)
    ensures FullNameJoined(Refresh(s, env).facts)
    decreases Unset(s)
  {
    var st := Pass(s, env);
    PassKeepsFullNameJoined(s, env);
    if st.outcome.Changed? {
      PassProgress(s, env);
      RefreshKeepsFullNameJoined(st.facts, env);
    }
  }

  /** So an error-free resolution from such fields ends with both names and
      `full_name == namespace + "/" + repo_name` as soon as either is known. */
  lemma ResolvedFullNameIsJoined(s: Facts, env: Env)
    requires Sane(env) && Inv(s)
    requires FullNameJoined(s)
    requires Refresh(s, env).error.None?
    ensures var t := Refresh(s, env).facts;
      Truthy(t.namespace) && Truthy(t.repoName) ==> t.fullName == Some(t.namespace.value + "/" + t.repoName.value)
  {
    RefreshKeepsFullNameJoined(s, env);
    ResolvedFactsAreClosed(s, env);
  }

  /** A supplied `full_name`, namespace and repository name are all kept,
      whether or not they agree: rule 1 only fills unset fields, and rule 12
      only fires with a name missing. */
  lemma SuppliedTripleIsKept(s: Facts, env: Env)
    requires Sane(env) && Inv(s)
    requires Truthy(s.fullName) && Truthy(s.namespace) && Truthy(s.repoName)
    ensures var t := Refresh(s, env).facts;
      t.fullName == s.fullName && t.namespace == s.namespace && t.repoName == s.repoName
  {
    RefreshKeeps(s, env);
  }

  /** The temporary flag is only ever set together with a repository handle. */
  lemma {:induction false} TemporaryHasRepo(s: Facts, env: Env)
    requires Sane(env) && Inv(s)
    requires s.workingDirTemporary ==> s.gitRepo.Some?
    ensures var t := Refresh(s, env).facts;
      t.workingDirTemporary ==> t.gitRepo.Some?
    decreases Unset(s)
  {
    var st := Pass(s, env);
    PassFrame(s, env);
    if st.outcome.Changed? {
      PassProgress(s, env);
      TemporaryHasRepo(st.facts, env);
    }
  }

  // ---------------------------------------------------------------------------
  // The constructor

  /** The constructor's arguments. */
  datatype Arguments = Arguments(
    gitRepo: Option<GitRepo>,
    workingDir: Option<string>,
    ref: Option<string>,
    gitProject: Option<GitProject>,
    gitService: Option<GitService>,
    gitUrl: Option<string>,
    fullName: Option<string>,
    namespace: Option<string>,
    repoName: Option<string>,
    pathOrUrl: Option<string>,
    offline: bool,
    refresh: bool)

  /** The fields as the constructor assigns them, before `path_or_url` is read. */
  function Given(a: Arguments): Facts {
    Facts(a.gitRepo, a.workingDir, a.ref, a.gitProject, a.gitService, a.gitUrl,
          a.fullName, a.namespace, a.repoName, a.offline, false)
  }

  /** `_is_url`: a response with `ok`, false on an HTTP error it catches; any
      other exception escapes. */
  function IsUrl(url: string, env: Env): (r: Option<bool>)
    ensures r.None? <==> env.probe(url).TransportError?
    ensures r == Some(true) <==> env.probe(url) == Responded(true)
  {
    match env.probe(url)
    case Responded(ok) => Some(ok)
    case HttpError => Some(false)
    case TransportError => None
  }

  /** The constructor's reading of `path_or_url`: an existing directory becomes
      the working directory unless one was given; otherwise, online, a URL that
      answers becomes the git URL unless one was given. */
  function ClassifyPathOrUrl(a: Arguments, env: Env): (r: Step)
    ensures r.outcome != Changed
    ensures r.facts == Given(a).(workingDir := r.facts.workingDir, gitUrl := r.facts.gitUrl)
    ensures !Truthy(a.pathOrUrl) ==> r == Step(Given(a), Unchanged, [])
    ensures Truthy(a.pathOrUrl) && env.isDir(a.pathOrUrl.value) ==>
      r == Step(Given(a).(workingDir := Or(a.workingDir, a.pathOrUrl)), Unchanged, [IsDir(a.pathOrUrl.value)])
    ensures Truthy(a.pathOrUrl) && !env.isDir(a.pathOrUrl.value) ==> r.facts.workingDir == a.workingDir
    ensures a.offline ==> r.facts.gitUrl == a.gitUrl && r.outcome == Unchanged && LocalOnly(r.calls)
    ensures r.facts.gitUrl != a.gitUrl ==>
      Truthy(a.pathOrUrl) && !Truthy(a.gitUrl) && r.facts.gitUrl == a.pathOrUrl
      && !a.offline && env.probe(a.pathOrUrl.value) == Responded(true)
    ensures r.outcome.Raised? <==>
      Truthy(a.pathOrUrl) && !env.isDir(a.pathOrUrl.value) && !a.offline && env.probe(a.pathOrUrl.value).TransportError?
  {
    var s := Given(a);
    if !Truthy(a.pathOrUrl) then Step(s, Unchanged, [])
    else
      var p := a.pathOrUrl.value;
      if env.isDir(p) then Step(s.(workingDir := Or(a.workingDir, a.pathOrUrl)), Unchanged, [IsDir(p)])
      else if a.offline then Step(s, Unchanged, [IsDir(p)])
      else match IsUrl(p, env)
        case None => Step(s, Raised(CallRaised(Probe(p))), [IsDir(p), Probe(p)])
        case Some(true) => Step(s.(gitUrl := Or(a.gitUrl, a.pathOrUrl)), Unchanged, [IsDir(p), Probe(p)])
        case Some(false) => Step(s, Unchanged, [IsDir(p), Probe(p)])
  }

  /** `if ref not in branches: create_head(ref)`, then `branches[ref].checkout()`.
      Without a repository handle, reading its branches raises. */
  function Checkout(s: Facts, ref: string): (r: Result<Facts, Error>)
    ensures s.gitRepo.None? <==> r == Failure(NoGitRepoToCheckout)
    ensures r.Success? ==>
      && r.value.gitRepo.Some?
      && RefOf(r.value.gitRepo.value) == ref
      && r.value.gitRepo.value.branches == s.gitRepo.value.branches + {ref}
      && r.value.gitRepo.value.workingDir == s.gitRepo.value.workingDir
      && r.value.gitRepo.value.origin == s.gitRepo.value.origin
      && r.value == s.(gitRepo := r.value.gitRepo)
  {
    match s.gitRepo
    case None => Failure(NoGitRepoToCheckout)
    case Some(repo) =>
      var branches := if ref !in repo.branches then repo.branches + {ref} else repo.branches;
      Success(s.(gitRepo := Some(repo.(branches := branches, head := OnBranch(ref)))))
  }

  /** The fields of a constructed project, or the exception the constructor
      raised, with the collaborator calls it made. */
  datatype Built = Built(facts: Facts, error: Option<Error>, calls: seq<Call>)

  /** On the arguments the resolution can settle for. */
  predicate ArgumentsSettle(a: Arguments) {
    Inv(Given(a))
  }

  /** `LocalProject.__init__`: classify `path_or_url`, assign the fields, resolve
      if asked, then check out the requested ref. */
  function Construct(a: Arguments, env: Env): (r: Built)
    requires a.refresh ==> Sane(env) && ArgumentsSettle(a)
  {
    var c := ClassifyPathOrUrl(a, env);
    if c.outcome.Raised? then Built(c.facts, Some(c.outcome.error), c.calls)
    else
      var resolved := if a.refresh then Refresh(c.facts, env) else Run(c.facts, None, 0, []);
      var calls := c.calls + resolved.calls;
      if resolved.error.Some? then Built(resolved.facts, resolved.error, calls)
      else if !Truthy(a.ref) then Built(resolved.facts, None, calls)
      else match Checkout(resolved.facts, a.ref.value)
        case Failure(e) => Built(resolved.facts, Some(e), calls)
        case Success(t) => Built(t, None, calls)
  }

  /** The constructor does not move a `full_name`, a ref or a namespace and
      repository name given together, and it checks out a requested ref. */
  lemma ConstructKeepsArguments(a: Arguments, env: Env)
    requires a.refresh ==> Sane(env) && ArgumentsSettle(a)
    requires Construct(a, env).error.None?
    ensures var t := Construct(a, env).facts;
      && (Truthy(a.fullName) ==> t.fullName == a.fullName)
      && (Truthy(a.ref) ==> t.ref == a.ref && t.gitRepo.Some? && RefOf(t.gitRepo.value) == a.ref.value
                            && a.ref.value in t.gitRepo.value.branches)
      && (Truthy(a.namespace) && Truthy(a.repoName) ==> t.namespace == a.namespace && t.repoName == a.repoName)
      && t.offline == a.offline
  {
    var c := ClassifyPathOrUrl(a, env);
    if a.refresh {
      RefreshKeeps(c.facts, env);
    }
  }

  /** Offline, the constructor makes no network call, and the service, the
      project and the temporary flag stay as given. */
  lemma ConstructOffline(a: Arguments, env: Env)
    requires a.refresh ==> Sane(env) && ArgumentsSettle(a)
    requires a.offline
    ensures var r := Construct(a, env);
      && LocalOnly(r.calls)
      && r.facts.gitService == a.gitService
      && r.facts.gitProject == a.gitProject
      && !r.facts.workingDirTemporary
  {
    var c := ClassifyPathOrUrl(a, env);
    if a.refresh {
      OfflineRefreshIsLocal(c.facts, env);
      LocalOnlyConcat(c.calls, Refresh(c.facts, env).calls);
    } else {
      assert c.calls + [] == c.calls;
    }
  }

  // ---------------------------------------------------------------------------
  // clean

  /** What `clean` did to the filesystem. */
  datatype Removal = NothingRemoved | Removed(dir: string) | RemovalRaised

  /** `clean`: remove the working directory while it is temporary, then clear
      the flag; `rmtree(None)` raises and leaves the flag set. */
  function Clean(s: Facts): (r: (Facts, Removal))
    ensures !s.workingDirTemporary ==> r == (s, NothingRemoved)
    ensures s.workingDirTemporary && s.workingDir.Some? ==>
      r == (s.(workingDirTemporary := false), Removed(s.workingDir.value))
    ensures !r.0.workingDirTemporary || r.1 == RemovalRaised
  {
    if !s.workingDirTemporary then (s, NothingRemoved)
    else if s.workingDir.None? then (s, RemovalRaised)
    else (s.(workingDirTemporary := false), Removed(s.workingDir.value))
  }

  /** A second `clean` after one that did not raise removes nothing. */
  lemma CleanIsIdempotent(s: Facts)
    requires Clean(s).1 != RemovalRaised
    ensures Clean(Clean(s).0) == (Clean(s).0, NothingRemoved)
  {
  }

  /** A constructed project that raised nothing and is temporary has a working
      directory, so `clean` removes that directory and nothing else. */
  lemma CleanRemovesTemporaryClone(a: Arguments, env: Env)
    requires a.refresh && Sane(env) && ArgumentsSettle(a)
    requires Construct(a, env).error.None?
    ensures var t := Construct(a, env).facts;
      t.workingDirTemporary ==> Truthy(t.workingDir) && Clean(t) == (t.(workingDirTemporary := false), Removed(t.workingDir.value))
  {
    var c := ClassifyPathOrUrl(a, env);
    TemporaryHasRepo(c.facts, env);
    ResolvedFactsAreClosed(c.facts, env);
  }
}
