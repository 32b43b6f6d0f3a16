/**
 * The sequence and string helpers of `Upstream`: the spec file path, the
 * commits between the upstream ref and the current one, the numbered patch
 * files made from them, branch creation, the synced file paths, the current
 * version string and the archive name. Git is modelled by its tags, its refs
 * with the commit each points to, and the first-parent log of a revision
 * range, given as a function.
 */
module UpstreamHelpers {
  import opened Base
  import opened Text

  datatype Commit = Commit(hexsha: string, summary: string, authorName: string, authorEmail: string)

  /** The repository as the read-only helpers see it. `log(range)` lists the
      commits of `git rev-list --first-parent --reverse range`. */
  datatype Repo = Repo(tags: set<string>, refs: map<string, Commit>, log: string -> seq<Commit>)

  datatype Error =
    | UpstreamNotFound(upstream: string)  // neither `origin/<upstream>` nor the tag exists
    | RefMissing(ref: string)             // `git_repo.refs[ref]` raised
    | RemoteMissing(branch: string)       // origin has no such branch to track
    | FileMissing(path: string)           // a synced file is not in the downstream repository
    | NotIterable                         // `for fi in None`
    | NoDirectory                         // `os.path.join(None, ...)`
    | NoOriginRemote                      // `git_repo.remote("origin")` raised ValueError

  // ---------------------------------------------------------------------------
  // specfile_path

  /** `specfile_path`: `<working_dir>/<package_name>.spec`, or None without a package name. */
  function SpecfilePath(packageName: Option<string>, workingDir: Option<string>): (r: Result<Option<string>, Error>)
    ensures r.Success? && r.value.None? <==> !Truthy(packageName)
    ensures r.Failure? <==> Truthy(packageName) && workingDir.None?
    ensures r.Success? && r.value.Some? ==>
      var p := r.value.value;
      && |p| >= |packageName.value| + 5
      && p[|p| - |packageName.value| - 5..] == packageName.value + ".spec"
    // a relative package name lands inside the working directory ...
    ensures r.Success? && r.value.Some? && !StartsWith(packageName.value, "/") ==>
      && StartsWith(r.value.value, workingDir.value)
      && (workingDir.value != "" && workingDir.value[|workingDir.value| - 1] != '/' ==>
            r.value.value == workingDir.value + "/" + packageName.value + ".spec")
      && (workingDir.value == "" || workingDir.value[|workingDir.value| - 1] == '/' ==>
            r.value.value == workingDir.value + packageName.value + ".spec")
    // ... and an absolute one leaves it, as `os.path.join` drops the directory
    ensures r.Success? && r.value.Some? && StartsWith(packageName.value, "/") ==>
      r.value.value == packageName.value + ".spec"
  {
    if !Truthy(packageName) then Success(None)
    else if workingDir.None? then Failure(NoDirectory)
    else
      var name := packageName.value + ".spec";
      PathJoinEndsWith(workingDir.value, name);
      assert StartsWith(name, "/") <==> StartsWith(packageName.value, "/") by {
        assert name[..1] == packageName.value[..1];
      }
      PathJoinRelative(workingDir.value, name);
      Success(Some(PathJoin(workingDir.value, name)))
  }

  // ---------------------------------------------------------------------------
  // get_commits_to_upstream

  /** The ref the upstream is compared at: the tag itself if there is one,
      else the branch on origin, which must exist. */
  function UpstreamRef(repo: Repo, upstream: string): (r: Result<string, Error>)
    ensures upstream in repo.tags ==> r == Success(upstream)
    ensures upstream !in repo.tags && "origin/" + upstream in repo.refs ==> r == Success("origin/" + upstream)
    ensures r.Failure? <==> upstream !in repo.tags && "origin/" + upstream !in repo.refs
    ensures r.Failure? ==> r.error == UpstreamNotFound(upstream)
  {
    if upstream in repo.tags then Success(upstream)
    else if "origin/" + upstream in repo.refs then Success("origin/" + upstream)
    else Failure(UpstreamNotFound(upstream))
  }

  /** `get_commits_to_upstream`: the commits from the upstream ref to `current`,
      oldest first, and with `addHead` the upstream ref's own commit in front. */
  method GetCommitsToUpstream(repo: Repo, upstream: string, current: string, addHead: bool)
    returns (r: Result<seq<Commit>, Error>)
    ensures UpstreamRef(repo, upstream).Failure? ==> r == Failure(UpstreamRef(repo, upstream).error)
    ensures UpstreamRef(repo, upstream).Success? ==>
      var ref := UpstreamRef(repo, upstream).value;
      var delta := repo.log(ref + ".." + current);
      && (!addHead ==> r == Success(delta))
      && (addHead && ref !in repo.refs ==> r == Failure(RefMissing(ref)))
      && (addHead && ref in repo.refs ==>
            && r.Success? && |r.value| == |delta| + 1
            && r.value[0] == repo.refs[ref]
            && r.value[1..] == delta)
  {
    var ref := UpstreamRef(repo, upstream);
    if ref.Failure? {
      return Failure(ref.error);
    }
    var commits := repo.log(ref.value + ".." + current);
    if addHead {
      if ref.value !in repo.refs {
        return Failure(RefMissing(ref.value));
      }
      commits := [repo.refs[ref.value]] + commits;
    }
    r := Success(commits);
  }

  // ---------------------------------------------------------------------------
  // create_patches

  /** `f"{k:04d}-{hexsha}.patch"`. */
  function PatchName(k: nat, hexsha: string): string {
    ZeroPad4(k) + "-" + hexsha + ".patch"
  }

  /** `f"{summary}\nAuthor: {name} <{email}>"`. */
  function PatchMessage(c: Commit): string {
    c.summary + "\nAuthor: " + c.authorName + " <" + c.authorEmail + ">"
  }

  /** A `git diff --patch parent child` written to `path`. */
  datatype Diff = Diff(parent: string, child: string, path: string)

  /** The patch number can be read back from the first four characters of
      its name, which a dash follows, as long as it has at most four digits. */
  lemma PatchNameNumbered(k: nat, hexsha: string)
    requires k < 10000
    ensures var name := PatchName(k, hexsha);
      && |name| > 4 && name[4] == '-'
      && IsDigits(name[..4]) && ParseDecimal(name[..4]) == k
  {
    ZeroPad4Width(k);
    ZeroPad4RoundTrip(k);
    var name := PatchName(k, hexsha);
    assert name[..4] == ZeroPad4(k);
  }

  /** Patches with different numbers get different names, whatever their
      commits: the digits before the first dash are the padded number. */
  lemma PatchNamesDiffer(j: nat, a: string, k: nat, b: string)
    requires j != k
    ensures PatchName(j, a) != PatchName(k, b)
  {
    if PatchName(j, a) == PatchName(k, b) {
      PatchNameInjective(j, a, k, b);
    }
  }

  lemma PatchNameInjective(j: nat, a: string, k: nat, b: string)
    requires PatchName(j, a) == PatchName(k, b)
    ensures j == k
  {
    var d, e := ZeroPad4(j), ZeroPad4(k);
    ZeroPad4RoundTrip(j);
    ZeroPad4RoundTrip(k);
    var x := PatchName(j, a);
    assert x == d + ("-" + a + ".patch");
    assert x == e + ("-" + b + ".patch");
    assert x[|d|] == '-' && x[|e|] == '-';
    assert forall i :: 0 <= i < |d| ==> IsDigit(x[i]);
    assert forall i :: 0 <= i < |e| ==> IsDigit(x[i]);
    if |d| != |e| {
      assert false;
    }
    assert d == x[..|d|] == e;
  }

  /** `create_patches`: one patch per commit after the first, numbered from
      1; patch `k` diffs commit `k - 1` against commit `k` and is written to
      the destination, which defaults to the working directory. */
  method CreatePatches(repo: Repo, current: string, upstream: Option<string>, specVersion: string,
                       destination: Option<string>, workingDir: Option<string>)
    returns (r: Result<seq<(string, string)>, Error>, diffs: seq<Diff>)
    ensures var commits := Commits(repo, Or(upstream, Some(specVersion)).value, current);
      && (commits.Failure? ==> r == Failure(commits.error) && diffs == [])
      && (commits.Success? && |commits.value| > 1 && Or(destination, workingDir).None? ==>
            r == Failure(NoDirectory) && diffs == [])
      && (commits.Success? && (|commits.value| <= 1 || Or(destination, workingDir).Some?) ==>
            var cs := commits.value;
            var n := if |cs| == 0 then 0 else |cs| - 1;
            && r.Success? && |r.value| == n && |diffs| == n
            && forall k :: 0 <= k < n ==>
                 && r.value[k] == (PatchName(k + 1, cs[k + 1].hexsha), PatchMessage(cs[k + 1]))
                 && diffs[k] == Diff(cs[k].hexsha, cs[k + 1].hexsha,
                                     PathJoin(Or(destination, workingDir).value, PatchName(k + 1, cs[k + 1].hexsha))))
  {
    var up := Or(upstream, Some(specVersion)).value;
    var commits := GetCommitsToUpstream(repo, up, current, true);
    diffs := [];
    if commits.Failure? {
      return Failure(commits.error), diffs;
    }
    var cs := commits.value;
    var dest := Or(destination, workingDir);
    var patchList := [];
    var n := if |cs| == 0 then 0 else |cs| - 1;
    for i := 0 to n
      invariant |patchList| == i && |diffs| == i
      invariant i > 0 ==> dest.Some?
      invariant forall k :: 0 <= k < i ==>
        && patchList[k] == (PatchName(k + 1, cs[k + 1].hexsha), PatchMessage(cs[k + 1]))
        && diffs[k] == Diff(cs[k].hexsha, cs[k + 1].hexsha, PathJoin(dest.value, PatchName(k + 1, cs[k + 1].hexsha)))
    {
      var commit, parent := cs[i + 1], cs[i];
      var patchName := PatchName(i + 1, commit.hexsha);
      if dest.None? {
        return Failure(NoDirectory), diffs;
      }
      var patchPath := PathJoin(dest.value, patchName);
      var patchMsg := PatchMessage(commit);
      diffs := diffs + [Diff(parent.hexsha, commit.hexsha, patchPath)];
      patchList := patchList + [(patchName, patchMsg)];
    }
    r := Success(patchList);
  }

  /** What `get_commits_to_upstream(upstream, add_usptream_head_commit=True)`
      returns, as a value. */
  function Commits(repo: Repo, upstream: string, current: string): (r: Result<seq<Commit>, Error>)
    ensures r.Success? ==> |r.value| >= 1
  {
    match UpstreamRef(repo, upstream)
    case Failure(e) => Failure(e)
    case Success(ref) =>
      if ref !in repo.refs then Failure(RefMissing(ref))
      else Success([repo.refs[ref]] + repo.log(ref + ".." + current))
  }

  /** Creating the patches from a repository that has the upstream ref gives
      exactly one patch per commit of the delta, the first one diffing the
      upstream ref's own commit against the first commit of the delta. */
  lemma OnePatchPerCommit(repo: Repo, upstream: string, current: string)
    requires UpstreamRef(repo, upstream).Success? && UpstreamRef(repo, upstream).value in repo.refs
    ensures var ref := UpstreamRef(repo, upstream).value;
      var cs := Commits(repo, upstream, current);
      && cs.Success?
      && |cs.value| - 1 == |repo.log(ref + ".." + current)|
      && cs.value[0] == repo.refs[ref]
      && cs.value[1..] == repo.log(ref + ".." + current)
  {
    var ref := UpstreamRef(repo, upstream).value;
    var cs := Commits(repo, upstream, current).value;
    assert cs == [repo.refs[ref]] + repo.log(ref + ".." + current);
  }

  // ---------------------------------------------------------------------------
  // create_branch

  /** The heads of the local repository, with the branch each tracks; the
      branches of the remote named origin are fixed, and `None` when the
      repository has no such remote. */
  class Branches {
    var heads: map<string, string>      // branch name -> the commit it was created at
    var tracking: map<string, string>   // branch name -> the origin ref it tracks
    const originBranches: Option<set<string>>

    constructor (heads: map<string, string>, originBranches: Option<set<string>>)
      ensures this.heads == heads && this.tracking == map[] && this.originBranches == originBranches
    {
      this.heads := heads;
      this.tracking := map[];
      this.originBranches := originBranches;
    }

    /** `create_branch`: the origin remote is looked up first, and its absence
        raises; then an existing branch is returned as it is; otherwise a head
        is created at `base`, and with `setupTracking` it is set to track
        origin's branch of that name, which must exist. The head stays
        created when that fails. */
    method CreateBranch(name: string, base: string, setupTracking: bool) returns (r: Result<string, Error>)
      modifies this
      ensures var step := CreateBranchStep(old(heads), old(tracking), originBranches, name, base, setupTracking);
        heads == step.0 && tracking == step.1 && r == step.2
    {
      if originBranches.None? {
        return Failure(NoOriginRemote);
      }
      if name in heads {
        return Success(name);
      }
      heads := heads[name := base];
      if setupTracking {
        if name !in originBranches.value {
          return Failure(RemoteMissing(name));
        }
        tracking := tracking[name := "origin/" + name];
      }
      r := Success(name);
    }
  }

  /** The heads, the tracking branches and the result of `create_branch`. */
  function CreateBranchStep(heads: map<string, string>, tracking: map<string, string>, origin: Option<set<string>>,
                            name: string, base: string, setupTracking: bool)
    : (map<string, string>, map<string, string>, Result<string, Error>)
  {
    if origin.None? then (heads, tracking, Failure(NoOriginRemote))
    else if name in heads then (heads, tracking, Success(name))
    else if !setupTracking then (heads[name := base], tracking, Success(name))
    else if name !in origin.value then (heads[name := base], tracking, Failure(RemoteMissing(name)))
    else (heads[name := base], tracking[name := "origin/" + name], Success(name))
  }

  /** Without an origin remote every `create_branch` raises and changes
      nothing. With one, creating a branch that exists changes nothing and
      returns it, so a second `create_branch` with the same name is a no-op. */
  lemma CreateBranchIdempotent(heads: map<string, string>, tracking: map<string, string>, origin: Option<set<string>>,
                               name: string, base: string, setupTracking: bool, base2: string, setupTracking2: bool)
    ensures var s := CreateBranchStep(heads, tracking, origin, name, base, setupTracking);
      var t := CreateBranchStep(s.0, s.1, origin, name, base2, setupTracking2);
      && (origin.None? ==> s == (heads, tracking, Failure(NoOriginRemote)) && t == s)
      && (origin.Some? ==> name in s.0 && t.0 == s.0 && t.1 == s.1 && t.2 == Success(name))
  {
  }

  /** With an origin remote, a new branch starts at `base`, every other head
      is untouched, and it tracks origin's branch exactly when tracking was
      asked for and origin has it. Without one, the call raises before any
      head is created. */
  lemma CreateBranchEffect(heads: map<string, string>, tracking: map<string, string>, origin: Option<set<string>>,
                           name: string, base: string, setupTracking: bool)
    requires name !in heads
    ensures var s := CreateBranchStep(heads, tracking, origin, name, base, setupTracking);
      && (origin.None? ==> s == (heads, tracking, Failure(NoOriginRemote)))
      && (origin.Some? ==>
            && s.0 == heads[name := base]
            && (s.2.Failure? <==> setupTracking && name !in origin.value)
            && (s.2.Failure? ==> s.2.error == RemoteMissing(name))
            && (setupTracking && name in origin.value ==> name in s.1 && s.1[name] == "origin/" + name)
            && (forall b :: b in tracking && b != name ==> b in s.1 && s.1[b] == tracking[b])
            && (!(setupTracking && name in origin.value) ==> s.1 == tracking))
  {
  }

  // ---------------------------------------------------------------------------
  // sync_files

  /** `fi[1:] if fi.startswith("/") else fi`: at most one leading slash is removed. */
  function StripOneSlash(fi: string): (r: string)
    ensures StartsWith(fi, "/") ==> fi == "/" + r
    ensures !StartsWith(fi, "/") ==> r == fi
  {
    if StartsWith(fi, "/") then fi[1..] else fi
  }

  /** The source of a synced file: relative names and names with one leading
      slash land under the downstream directory; a name with two leading
      slashes keeps one and so names an absolute path. */
  lemma SyncSource(dir: string, fi: string)
    ensures !StartsWith(StripOneSlash(fi), "/") ==>
      PathJoin(dir, StripOneSlash(fi)) == (if dir == "" || dir[|dir| - 1] == '/' then dir else dir + "/") + StripOneSlash(fi)
    ensures StartsWith(fi, "//") ==> PathJoin(dir, StripOneSlash(fi)) == fi[1..]
  {
    if StartsWith(fi, "//") {
      assert StripOneSlash(fi)[..1] == fi[1..2];
    }
  }

  /** `sync_files`: with the action enabled, each file's source under the
      downstream directory is copied into the upstream one, in order; a
      missing source raises, after the copies before it. `pathExists` is
      `os.path.exists`. */
  method SyncFiles(enabled: bool, filesToSync: Option<seq<string>>, downstreamDir: string, upstreamDir: string,
                   pathExists: string -> bool)
    returns (e: Option<Error>, copies: seq<(string, string)>)
    ensures !enabled ==> e == None && copies == []
    ensures enabled && filesToSync.None? ==> e == Some(NotIterable) && copies == []
    ensures enabled && filesToSync.Some? ==>
      var files := filesToSync.value;
      var sources := seq(|files|, i requires 0 <= i < |files| => PathJoin(downstreamDir, StripOneSlash(files[i])));
      && |copies| <= |files|
      && (forall i :: 0 <= i < |copies| ==> copies[i] == (sources[i], upstreamDir) && pathExists(sources[i]))
      && (e.None? <==> |copies| == |files|)
      && (e.Some? ==> !pathExists(sources[|copies|]) && e.value == FileMissing(sources[|copies|]))
  {
    copies := [];
    if !enabled {
      return None, copies;
    }
    if filesToSync.None? {
      return Some(NotIterable), copies;
    }
    var files := filesToSync.value;
    ghost var sources := seq(|files|, i requires 0 <= i < |files| => PathJoin(downstreamDir, StripOneSlash(files[i])));
    for n := 0 to |files|
      invariant |copies| == n
      invariant forall i :: 0 <= i < n ==> copies[i] == (sources[i], upstreamDir) && pathExists(sources[i])
    {
      var fi := StripOneSlash(files[n]);
      var src := PathJoin(downstreamDir, fi);
      if !pathExists(src) {
        return Some(FileMissing(src)), copies;
      }
      copies := copies + [(src, upstreamDir)];
    }
    e := None;
  }

  // ---------------------------------------------------------------------------
  // get_current_version and create_archive

  /** `get_current_version`: the action's output if it gave one, else the
      version command's output stripped, with dashes turned into dots. */
  function CurrentVersion(actionOutput: Option<string>, commandOutput: string): (v: string)
    ensures Truthy(actionOutput) ==> v == actionOutput.value
    ensures !Truthy(actionOutput) ==> '-' !in v && |v| == |Strip(commandOutput)|
    ensures !Truthy(actionOutput) ==> forall i :: 0 <= i < |v| ==>
      v[i] == (if Strip(commandOutput)[i] == '-' then '.' else Strip(commandOutput)[i])
  {
    if Truthy(actionOutput) then actionOutput.value
    else
      var v := ReplaceChar(Strip(commandOutput), '-', '.');
      assert forall i :: 0 <= i < |v| ==> v[i] != '-';
      v
  }

  /** Sanitising a version twice gives the same as once. */
  lemma VersionSanitisingIdempotent(commandOutput: string)
    ensures var v := CurrentVersion(None, commandOutput);
      CurrentVersion(None, v) == v
  {
    var v := CurrentVersion(None, commandOutput);
    var t := Strip(commandOutput);
    StripTrimmed(commandOutput);
    assert |v| == |t|;
    if v != [] {
      assert !IsSpace(v[0]) && !IsSpace(v[|v| - 1]);
    }
    assert Strip(v) == v;
    assert ReplaceChar(v, '-', '.') == v;
  }

  /** `str(x)` for an optional string: `"None"` when it is absent. */
  function StrOf(x: Option<string>): string {
    if x.Some? then x.value else "None"
  }

  /** The archive's `dir_name`: the upstream project name if it is set, else
      the package name, then a dash and the version. */
  function DirName(upstreamProjectName: Option<string>, packageName: Option<string>, version: string): (d: string)
    ensures Truthy(upstreamProjectName) ==> d == upstreamProjectName.value + "-" + version
    ensures !Truthy(upstreamProjectName) ==> d == StrOf(packageName) + "-" + version
  {
    (if Truthy(upstreamProjectName) then upstreamProjectName.value else StrOf(packageName)) + "-" + version
  }

  /** `create_archive`: the command it runs, if the action is enabled. A
      configured tarball command is run as it is; otherwise `git archive`
      writes `<dir_name>.tar.gz` with every path under `<dir_name>/`. */
  function ArchiveCommand(enabled: bool, upstreamProjectName: Option<string>, packageName: Option<string>,
                          version: string, tarballCommand: seq<string>): (cmd: Option<seq<string>>)
    ensures cmd.Some? <==> enabled
    ensures enabled && |tarballCommand| > 0 ==> cmd == Some(tarballCommand)
    ensures enabled && |tarballCommand| == 0 ==>
      var d := DirName(upstreamProjectName, packageName, version);
      && |cmd.value| == 7 && cmd.value[..3] == ["git", "archive", "-o"]
      && cmd.value[3] == d + ".tar.gz"
      && cmd.value[4] == "--prefix" && cmd.value[5] == d + "/" && cmd.value[6] == "HEAD"
  {
    if !enabled then None
    else if |tarballCommand| > 0 then Some(tarballCommand)
    else
      var d := DirName(upstreamProjectName, packageName, version);
      Some(["git", "archive", "-o", d + ".tar.gz", "--prefix", d + "/", "HEAD"])
  }
}
