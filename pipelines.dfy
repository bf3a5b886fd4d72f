/**
 * Pipeline helpers (pipelines.py): selecting a directory of the repository
 * with its exclude patterns, reading a file out of a container, and the two
 * rsync steps that move the Gradle home to and from its cache volume.
 */
module Pipelines {
  import opened Wrappers
  import opened Seqs
  import opened Text
  import opened Containers
  import opened Settings

  /** The patterns excluded from a repository directory: the default list when
      the caller gave none, otherwise the caller's patterns and the defaults,
      each once. Python builds the second case with `list(set(...))`, whose
      order is not specified; here it is first-occurrence order. */
  function EffectiveExcludes(defaults: seq<string>, user: Option<seq<string>>): (r: seq<string>)
    ensures user.None? ==> r == defaults
    ensures user.Some? ==> Distinct(r) && forall f :: f in r <==> f in user.value || f in defaults
  {
    match user
    case None => defaults
    case Some(u) => Dedup(u + defaults)
  }

  /** A sub-directory with a trailing '/', added only when missing. */
  function TrailingSlash(subdir: string): (r: string)
    ensures EndsWith(r, "/")
    ensures EndsWith(subdir, "/") ==> r == subdir
    ensures !EndsWith(subdir, "/") ==> r == subdir + "/"
  {
    if EndsWith(subdir, "/") then subdir else subdir + "/"
  }

  /** The patterns made relative to a sub-directory: only the patterns that
      mention it are kept, each with every occurrence of it deleted. */
  function RelativeExcludes(patterns: seq<string>, sub: string): (r: seq<string>)
    ensures |r| <= |patterns|
    ensures forall x :: x in r <==> exists f :: f in patterns && Contains(f, sub) && x == Replace(f, sub, "")
  {
    if patterns == [] then []
    else
      var front := patterns[..|patterns| - 1];
      var f := patterns[|patterns| - 1];
      assert forall g :: g in patterns <==> g in front || g == f by {
        assert patterns == front + [f];
      }
      var rest := RelativeExcludes(front, sub);
      if Contains(f, sub) then
        var r := rest + [Replace(f, sub, "")];
        assert forall x :: x in r <==> x in rest || x == Replace(f, sub, "");
        assert f in patterns;
        r
      else rest
  }

  /** A pattern under the sub-directory, and not naming it again, becomes the
      path below it. */
  lemma RelativeExcludeStrip(patterns: seq<string>, sub: string, rest: string)
    requires sub != [] && sub + rest in patterns && !Contains(rest, sub)
    ensures rest in RelativeExcludes(patterns, sub)
  {
    ContainsAt(sub + rest, sub, 0);
    ReplaceLeading(sub, rest);
  }

  /** The directory `get_repo_dir` selects on the host. */
  function RepoDir(defaults: seq<string>, subdir: string, user: Option<seq<string>>,
                   includes: Option<seq<string>>): (d: Directory)
    ensures d.HostDirectory? && d.included == includes && d.excluded.Some?
    ensures subdir == "." ==> d.path == "." && d.excluded.value == EffectiveExcludes(defaults, user)
    ensures subdir != "." ==> d.path == TrailingSlash(subdir)
    ensures subdir != "." ==> EndsWith(d.path, "/") && StartsWith(d.path, subdir)
  {
    var patterns := EffectiveExcludes(defaults, user);
    if subdir == "." then HostDirectory(".", Some(patterns), includes)
    else
      var path := TrailingSlash(subdir);
      HostDirectory(path, Some(RelativeExcludes(patterns, path)), includes)
  }

  /** Without caller patterns the whole repository is selected with exactly the
      default excludes. */
  lemma RepoDirDefaults(defaults: seq<string>, includes: Option<seq<string>>)
    ensures RepoDir(defaults, ".", None, includes) == HostDirectory(".", Some(defaults), includes)
  {
  }

  /** For a sub-directory, an exclude pattern survives exactly when it is a
      caller or default pattern mentioning the slashed sub-directory, which is
      then deleted from it. */
  lemma {:induction false} RepoDirSubdir(defaults: seq<string>, subdir: string, user: Option<seq<string>>,
                                        includes: Option<seq<string>>, x: string)
    requires subdir != "."
    ensures var d := RepoDir(defaults, subdir, user, includes);
      x in d.excluded.value <==>
        exists f :: (f in defaults || (user.Some? && f in user.value)) &&
          Contains(f, d.path) && x == Replace(f, d.path, "")
  {
    var d := RepoDir(defaults, subdir, user, includes);
    var patterns := EffectiveExcludes(defaults, user);
    assert d.excluded.value == RelativeExcludes(patterns, d.path);
    assert forall f :: f in patterns <==> f in defaults || (user.Some? && f in user.value);
    if x in d.excluded.value {
      var f :| f in patterns && Contains(f, d.path) && x == Replace(f, d.path, "");
      assert f in defaults || (user.Some? && f in user.value);
    }
    if exists f :: (f in defaults || (user.Some? && f in user.value)) && Contains(f, d.path) && x == Replace(f, d.path, "") {
      var f :| (f in defaults || (user.Some? && f in user.value)) && Contains(f, d.path) && x == Replace(f, d.path, "");
      assert f in patterns;
    }
  }

  /** Caller patterns that grew by copies of the defaults select the same
      directory: the defaults are added again and duplicates dropped anyway. */
  lemma {:induction false} RepoDirGrown(defaults: seq<string>, subdir: string, user: seq<string>,
                                       k: nat, includes: Option<seq<string>>)
    ensures RepoDir(defaults, subdir, Some(user + Repeat(defaults, k)), includes) ==
            RepoDir(defaults, subdir, Some(user), includes)
  {
    DedupRepeat(user, defaults, k);
    assert user + Repeat(defaults, k) + defaults == (user + Repeat(defaults, k)) + defaults;
  }

  /** `xs` repeated `k` times. */
  function Repeat(xs: seq<string>, k: nat): seq<string> {
    if k == 0 then [] else Repeat(xs, k - 1) + xs
  }

  /** No copy, and a single copy. */
  lemma RepeatOnce(a: seq<string>, d: seq<string>)
    ensures a + Repeat(d, 0) == a && a + Repeat(d, 1) == a + d
  {
    assert Repeat(d, 1) == Repeat(d, 0) + d;
    assert a + [] == a;
  }

  /** One more copy at the end. */
  lemma RepeatMore(a: seq<string>, d: seq<string>, k: nat)
    ensures a + Repeat(d, k) + d == a + Repeat(d, k + 1)
  {
    assert Repeat(d, k + 1) == Repeat(d, k) + d;
  }

  lemma {:induction false} DedupRepeat(a: seq<string>, d: seq<string>, k: nat)
    ensures Dedup(a + Repeat(d, k) + d) == Dedup(a + d)
  {
    if k > 0 {
      DedupRepeat(a, d, k - 1);
      var b := a + Repeat(d, k - 1);
      RepeatMore(a, d, k - 1);
      DedupTwice(b, d);
    } else {
      assert a + Repeat(d, k) + d == a + d;
    }
  }

  /** A second copy of `d` right after the first adds nothing. */
  lemma DedupTwice(b: seq<string>, d: seq<string>)
    ensures Dedup(b + d + d) == Dedup(b + d)
  {
    var x := b + d;
    assert forall y :: y in d ==> y in x by {
      assert forall i :: 0 <= i < |d| ==> x[|b| + i] == d[i];
    }
    DedupAbsorb(x, d);
  }

  /** `get_repo_dir`: a caller's exclude list is extended in place with the
      default excluded files before the patterns are computed. */
  method GetRepoDir(settings: GlobalSettings, subdir: string, exclude: StrList?, includes: Option<seq<string>>)
    returns (d: Directory)
    modifies exclude
    ensures exclude != null ==> exclude.items == old(exclude.items) + settings.defaultExcludedFiles
    ensures d == RepoDir(settings.defaultExcludedFiles, subdir,
                         if exclude == null then None else Some(old(exclude.items)), includes)
  {
    var patterns: seq<string>;
    if exclude == null {
      patterns := settings.defaultExcludedFiles;
    } else {
      exclude.items := exclude.items + settings.defaultExcludedFiles;
      patterns := Dedup(exclude.items);
    }
    var path := subdir;
    if subdir != "." {
      path := if EndsWith(subdir, "/") then subdir else subdir + "/";
      patterns := RelativeExcludes(patterns, path);
    }
    d := HostDirectory(path, Some(patterns), includes);
  }

  /** What reading a file out of a container produced. */
  datatype FileRead = Contents(text: string) | Failed(message: string)

  const NoSuchFile: string := "no such file or directory"

  /** `get_file_contents`: the contents when the read succeeds; None when the
      error says the file does not exist; any other error propagates. */
  function GetFileContents(read: FileRead): (r: Result<Option<string>>)
    ensures read.Contents? ==> r == Ok(Some(read.text))
    ensures r == Ok(None) <==> read.Failed? && Contains(read.message, NoSuchFile)
    ensures r.Err? <==> read.Failed? && !Contains(read.message, NoSuchFile)
    ensures r.Err? ==> r.error == QueryError(read.message)
  {
    match read
    case Contents(text) => Ok(Some(text))
    case Failed(message) =>
      if Contains(message, NoSuchFile) then Ok(None) else Err(QueryError(message))
  }

  /** Any error whose text ends in the missing-file message means "no file". */
  lemma MissingFile(prefix: string)
    ensures GetFileContents(Failed(prefix + NoSuchFile)) == Ok(None)
  {
    ContainsAt(prefix + NoSuchFile, NoSuchFile, |prefix|);
  }

  /** `sync_from_gradle_cache_to_homedir(cache, home)` applied to a container:
      lists the cache, then copies it into the Gradle home. */
  function SyncFromCache(cache: string, home: string, ctr: Container): (r: Container)
    ensures |r.ops| == |ctr.ops| + 2 && r.ops[..|ctr.ops|] == ctr.ops
    ensures r.ops[|ctr.ops|] == Exec(["ls", "-la", cache])
    ensures r.ops[|ctr.ops| + 1] == Exec(["rsync", "-az", cache, home])
  {
    With(With(ctr, Exec(["ls", "-la", cache])), Exec(["rsync", "-az", cache, home]))
  }

  /** `sync_to_gradle_cache_from_homedir(cache, home)` applied to a container:
      copies the Gradle home into the cache, deleting what the home lacks. */
  function SyncToCache(cache: string, home: string, ctr: Container): (r: Container)
    ensures |r.ops| == |ctr.ops| + 1 && r.ops[..|ctr.ops|] == ctr.ops
    ensures r.ops[|ctr.ops|] == Exec(["rsync", "-az", "--delete", home, cache])
  {
    With(ctr, Exec(["rsync", "-az", "--delete", home, cache]))
  }

  /** The two syncs copy in opposite directions: the rsync back to the cache is
      the rsync from it with source and destination swapped and `--delete`
      added. */
  lemma SyncDirections(cache: string, home: string, ctr: Container)
    ensures var from := SyncFromCache(cache, home, ctr).ops[|ctr.ops| + 1].args;
      var to := SyncToCache(cache, home, ctr).ops[|ctr.ops|].args;
      to == from[..2] + ["--delete", from[3], from[2]]
  {
  }
}
