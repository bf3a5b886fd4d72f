/**
 * Container recipes (environments.py): each recipe records a fixed sequence of
 * operations on a container. The list and string logic inside them — the
 * exclude patterns handed to `get_repo_dir`, the lines of requirements.txt,
 * the install commands, the Gradle source lists, the image id printed by
 * `docker load` and the credential checks — is what is modelled.
 */
module Environments {
  import opened Wrappers
  import opened Seqs
  import opened Text
  import opened Dicts
  import opened Containers
  import opened Settings
  import opened Pipelines

  /** A Python list argument in a boolean context: None and [] are false. */
  predicate Given(xs: Option<seq<string>>) {
    xs.Some? && xs.value != []
  }

  // ---------------------------------------------------------------- Python

  const PipUpgrade: seq<string> := ["pip", "install", "--upgrade", "pip"]

  /** `with_python_base`: only a Python 3 image is accepted; it gets the pip
      cache volume and an upgraded pip. */
  function PythonBase(image: string): (r: Result<Container>)
    ensures r.Err? <==> !StartsWith(image, "python:3")
    ensures r.Err? ==> r.error == ValueError
    ensures r.Ok? ==> |r.value.ops| == 3 && r.value.ops[0] == From(image) && r.value.ops[2] == Exec(PipUpgrade)
    ensures r.Ok? ==> r.value.ops[1] == MountedCache("/root/.cache/pip", CacheVolume("pip_cache"))
  {
    if !StartsWith(image, "python:3") then Err(ValueError)
    else Ok(Container([From(image), MountedCache("/root/.cache/pip", CacheVolume("pip_cache")), Exec(PipUpgrade)]))
  }

  /** The image names the recipe accepts and refuses. */
  lemma PythonBaseExamples()
    ensures PythonBase("python:3.11-slim").Ok?
    ensures PythonBase("python:2.7").Err? && PythonBase("node:18").Err?
  {
    assert "python:3.11-slim"[..8] == "python:3";
    assert "python:2.7"[7] == '2';
    assert |"node:18"| < 8;
  }

  /** The caller patterns `with_python_package` hands to `get_repo_dir`: the
      Python defaults followed by the caller's patterns when it gave any,
      otherwise the Python defaults list itself. */
  function PackageExcludes(pythonDefaults: seq<string>, exclude: Option<seq<string>>): (r: seq<string>)
    ensures Given(exclude) ==> r == pythonDefaults + exclude.value
    ensures !Given(exclude) ==> r == pythonDefaults
  {
    if Given(exclude) then pythonDefaults + exclude.value else pythonDefaults
  }

  /** The package directory: the package path of the repository, without the
      Python defaults, the caller's patterns and the default excluded files. */
  function PackageDirectory(settings: GlobalSettings, pythonDefaults: seq<string>, path: string,
                            exclude: Option<seq<string>>): Directory
  {
    RepoDir(settings.defaultExcludedFiles, path, Some(PackageExcludes(pythonDefaults, exclude)), None)
  }

  /** Under the package path, a pattern is excluded exactly when it is a
      Python default, a caller pattern or a default excluded file that mentions
      the slashed package path. */
  lemma PackageDirectoryExcludes(settings: GlobalSettings, pythonDefaults: seq<string>, path: string,
                                 exclude: Option<seq<string>>, x: string)
    requires path != "."
    ensures var d := PackageDirectory(settings, pythonDefaults, path, exclude);
      x in d.excluded.value <==>
        exists f :: (f in settings.defaultExcludedFiles || f in pythonDefaults || (Given(exclude) && f in exclude.value)) &&
          Contains(f, d.path) && x == Replace(f, d.path, "")
  {
    var u := PackageExcludes(pythonDefaults, exclude);
    RepoDirSubdir(settings.defaultExcludedFiles, path, Some(u), None, x);
    assert forall f :: f in u <==> f in pythonDefaults || (Given(exclude) && f in exclude.value);
  }

  /** The package mounted at "/" + path, which also becomes the working
      directory. */
  function PackageMounted(env: Container, path: string, dir: Directory): (c: Container)
    ensures c.ops == env.ops + [MountedDirectory("/" + path, dir), Workdir("/" + path)]
  {
    WithAll(env, [MountedDirectory("/" + path, dir), Workdir("/" + path)])
  }

  /** `with_python_package`. Without caller patterns the settings' own Python
      defaults list is handed to `get_repo_dir`, which extends it in place with
      the default excluded files. */
  method WithPythonPackage(settings: GlobalSettings, env: Container, path: string, exclude: Option<seq<string>>)
    returns (c: Container)
    modifies settings.defaultPythonExclude
    ensures Given(exclude) ==> settings.defaultPythonExclude.items == old(settings.defaultPythonExclude.items)
    ensures !Given(exclude) ==> settings.defaultPythonExclude.items ==
                                old(settings.defaultPythonExclude.items) + settings.defaultExcludedFiles
    ensures c == PackageMounted(env, path, PackageDirectory(settings, old(settings.defaultPythonExclude.items), path, exclude))
  {
    var patterns: StrList;
    if exclude.Some? && exclude.value != [] {
      patterns := new StrList(settings.defaultPythonExclude.items + exclude.value);
    } else {
      patterns := settings.defaultPythonExclude;
    }
    var dir := GetRepoDir(settings, path, patterns, None);
    c := WithAll(env, [MountedDirectory("/" + path, dir), Workdir("/" + path)]);
  }

  const RequirementsInstall: seq<string> := ["python", "-m", "pip", "install", "-r", "requirements.txt"]
  const PackageInstall: seq<string> := ["python", "-m", "pip", "install", "."]

  /** The package install with extras: its last argument becomes
      ".[group1,group2,...]". */
  function ExtrasInstall(groups: seq<string>): (args: seq<string>)
    ensures |args| == |PackageInstall|
    ensures args[..4] == PackageInstall[..4]
    ensures args[4] == ".[" + Join(groups, ",") + "]"
  {
    PackageInstall[..4] + [PackageInstall[4] + "[" + Join(groups, ",") + "]"]
  }

  lemma ExtrasExample()
    ensures ExtrasInstall(["dev", "tests"])[4] == ".[dev,tests]"
  {
    assert Join(["dev", "tests"], ",") == "dev,tests" by {
      assert Join(["tests"], ",") == "tests";
    }
  }

  /** A requirements line naming a local package. */
  predicate IsLocalRequirement(line: string) {
    StartsWith(line, "-e .")
  }

  /** The repository path of a local requirement: the package path, '/', and
      the line without its first three characters. */
  function LocalPath(path: string, line: string): string
    requires IsLocalRequirement(line)
  {
    path + "/" + line[3..]
  }

  /** The mount of one local requirement. */
  function LocalMount(settings: GlobalSettings, pythonDefaults: seq<string>, path: string, line: string): Op
    requires IsLocalRequirement(line)
  {
    var local := LocalPath(path, line);
    MountedDirectory("/" + local, RepoDir(settings.defaultExcludedFiles, local, Some(pythonDefaults), None))
  }

  /** The number of local requirements among `lines`. */
  function LocalCount(lines: seq<string>): (n: nat)
    ensures n <= |lines|
  {
    if lines == [] then 0
    else
      var front := lines[..|lines| - 1];
      LocalCount(front) + (if IsLocalRequirement(lines[|lines| - 1]) then 1 else 0)
  }

  /** The mounts for the local requirements among `lines`, in order. */
  function LocalMounts(settings: GlobalSettings, pythonDefaults: seq<string>, path: string, lines: seq<string>)
    : (ops: seq<Op>)
    ensures |ops| == LocalCount(lines)
  {
    if lines == [] then []
    else
      var front := lines[..|lines| - 1];
      var line := lines[|lines| - 1];
      var rest := LocalMounts(settings, pythonDefaults, path, front);
      if IsLocalRequirement(line) then rest + [LocalMount(settings, pythonDefaults, path, line)] else rest
  }

  /** The local mounts are directory mounts only. */
  lemma {:induction false} LocalMountsOnly(settings: GlobalSettings, pythonDefaults: seq<string>, path: string,
                                          lines: seq<string>)
    ensures forall i :: 0 <= i < |LocalMounts(settings, pythonDefaults, path, lines)| ==>
      LocalMounts(settings, pythonDefaults, path, lines)[i].MountedDirectory?
  {
    if lines != [] {
      LocalMountsOnly(settings, pythonDefaults, path, lines[..|lines| - 1]);
    }
  }

  /** Exactly the local requirements are mounted. */
  lemma {:induction false} LocalMountsMembers(settings: GlobalSettings, pythonDefaults: seq<string>, path: string,
                                             lines: seq<string>, op: Op)
    ensures op in LocalMounts(settings, pythonDefaults, path, lines) <==>
      exists line :: line in lines && IsLocalRequirement(line) && op == LocalMount(settings, pythonDefaults, path, line)
  {
    if lines != [] {
      var front := lines[..|lines| - 1];
      var line := lines[|lines| - 1];
      assert forall l :: l in lines <==> l in front || l == line by {
        assert lines == front + [line];
      }
      LocalMountsMembers(settings, pythonDefaults, path, front, op);
    }
  }

  /** The requirements text, when the file exists and is not empty. */
  function Requirements(contents: Option<string>): Option<string> {
    if contents.Some? && contents.value != "" then contents else None
  }

  /** The lines of requirements.txt, when it has content. */
  function RequirementLines(reqs: Option<string>): seq<string> {
    if reqs.Some? then Split(reqs.value, '\n') else []
  }

  /** The local requirement mounts and the requirements install, when
      requirements.txt has content. */
  function WithRequirements(settings: GlobalSettings, pythonDefaults: seq<string>, path: string,
                            base: Container, reqs: Option<string>): Container
  {
    if reqs.Some? then
      WithAll(base, LocalMounts(settings, pythonDefaults, path, RequirementLines(reqs)) + [Exec(RequirementsInstall)])
    else base
  }

  /** The package install, then the install with extras when extras are asked
      for. */
  function WithPackageInstall(c: Container, groups: Option<seq<string>>): Container {
    var installed := With(c, Exec(PackageInstall));
    if Given(groups) then With(installed, Exec(ExtrasInstall(groups.value))) else installed
  }

  /** `with_installed_python_package`, given what reading requirements.txt in
      the package container produced. */
  function InstalledPythonPackage(settings: GlobalSettings, pythonDefaults: seq<string>, env: Container, path: string,
                                  groups: Option<seq<string>>, exclude: Option<seq<string>>, read: FileRead)
    : (r: Result<Container>)
    ensures r.Err? <==> read.Failed? && !Contains(read.message, NoSuchFile)
    ensures r.Err? ==> r.error == QueryError(read.message)
  {
    InstallFrom(settings, pythonDefaults, PackageMounted(env, path, PackageDirectory(settings, pythonDefaults, path, exclude)),
                path, groups, read)
  }

  /** The steps after the package is mounted: the requirements, when
      requirements.txt has content, then the package itself. */
  function InstallFrom(settings: GlobalSettings, pythonDefaults: seq<string>, base: Container, path: string,
                       groups: Option<seq<string>>, read: FileRead): Result<Container>
  {
    match GetFileContents(read)
    case Err(e) => Err(e)
    case Ok(contents) =>
      Ok(WithPackageInstall(WithRequirements(settings, pythonDefaults, path, base, Requirements(contents)), groups))
  }

  lemma ExecsMounted(env: Container, path: string, dir: Directory)
    ensures Execs(PackageMounted(env, path, dir).ops) == Execs(env.ops)
  {
    var mounted := [MountedDirectory("/" + path, dir), Workdir("/" + path)];
    ExecsNone(mounted);
    ExecsAppend(env.ops, mounted);
  }

  lemma ExecsRequirements(settings: GlobalSettings, pythonDefaults: seq<string>, path: string,
                          base: Container, reqs: Option<string>)
    ensures Execs(WithRequirements(settings, pythonDefaults, path, base, reqs).ops) ==
            Execs(base.ops) + (if reqs.Some? then [RequirementsInstall] else [])
  {
    if reqs.Some? {
      var mounts := LocalMounts(settings, pythonDefaults, path, RequirementLines(reqs));
      LocalMountsOnly(settings, pythonDefaults, path, RequirementLines(reqs));
      ExecsNone(mounts);
      ExecsSingle(Exec(RequirementsInstall));
      ExecsAppend(mounts, [Exec(RequirementsInstall)]);
      ExecsAppend(base.ops, mounts + [Exec(RequirementsInstall)]);
    }
  }

  lemma ExecsPackageInstall(c: Container, groups: Option<seq<string>>)
    ensures Execs(WithPackageInstall(c, groups).ops) ==
            Execs(c.ops) + [PackageInstall] + (if Given(groups) then [ExtrasInstall(groups.value)] else [])
  {
    var installed := With(c, Exec(PackageInstall));
    ExecsSingle(Exec(PackageInstall));
    ExecsAppend(c.ops, [Exec(PackageInstall)]);
    if Given(groups) {
      ExecsSingle(Exec(ExtrasInstall(groups.value)));
      ExecsAppend(installed.ops, [Exec(ExtrasInstall(groups.value))]);
    }
  }

  /** The commands the installed package runs: the requirements install only
      when requirements.txt has content, the package install always, and the
      install with extras only when extras are asked for, in that order. Local
      requirements add mounts, not commands. */
  lemma InstalledExecs(settings: GlobalSettings, pythonDefaults: seq<string>, env: Container, path: string,
                       groups: Option<seq<string>>, exclude: Option<seq<string>>, read: FileRead)
    requires InstalledPythonPackage(settings, pythonDefaults, env, path, groups, exclude, read).Ok?
    ensures var r := InstalledPythonPackage(settings, pythonDefaults, env, path, groups, exclude, read).value;
      var reqs := Requirements(GetFileContents(read).value);
      Execs(r.ops) == Execs(env.ops) +
        (if reqs.Some? then [RequirementsInstall] else []) + [PackageInstall] +
        (if Given(groups) then [ExtrasInstall(groups.value)] else [])
  {
    var dir := PackageDirectory(settings, pythonDefaults, path, exclude);
    var base := PackageMounted(env, path, dir);
    var reqs := Requirements(GetFileContents(read).value);
    ExecsMounted(env, path, dir);
    ExecsRequirements(settings, pythonDefaults, path, base, reqs);
    ExecsPackageInstall(WithRequirements(settings, pythonDefaults, path, base, reqs), groups);
  }

  /** The number of local requirements in requirements.txt. */
  function RequirementsCount(reqs: Option<string>): nat {
    LocalCount(RequirementLines(reqs))
  }

  /** The number of local requirements read from requirements.txt: none when
      reading it fails. */
  function ReadCount(read: FileRead): nat {
    var contents := GetFileContents(read);
    if contents.Ok? then RequirementsCount(Requirements(contents.value)) else 0
  }

  /** How often the settings' Python defaults list is extended in place during
      `with_installed_python_package`: once in `with_python_package` when the
      caller gave no patterns, and once per local requirement. */
  function Extensions(exclude: Option<seq<string>>, read: FileRead): nat {
    (if Given(exclude) then 0 else 1) + ReadCount(read)
  }

  /** One more line adds its mount when it is a local requirement, and
      nothing otherwise. */
  lemma LocalMountsSnoc(settings: GlobalSettings, pythonDefaults: seq<string>, path: string,
                        done: seq<string>, line: string)
    ensures LocalMounts(settings, pythonDefaults, path, done + [line]) ==
            LocalMounts(settings, pythonDefaults, path, done) +
            (if IsLocalRequirement(line) then [LocalMount(settings, pythonDefaults, path, line)] else [])
    ensures LocalCount(done + [line]) == LocalCount(done) + (if IsLocalRequirement(line) then 1 else 0)
  {
    LocalCountSnoc(done, line);
  }

  /** Line `i` counts once more exactly when it is a local requirement. */
  lemma LocalCountStep(lines: seq<string>, i: nat)
    requires i < |lines|
    ensures LocalCount(lines[..i + 1]) == LocalCount(lines[..i]) + (if IsLocalRequirement(lines[i]) then 1 else 0)
  {
    assert lines[..i + 1] == lines[..i] + [lines[i]];
    LocalCountSnoc(lines[..i], lines[i]);
  }

  /** One more line counts once more exactly when it is a local requirement. */
  lemma LocalCountSnoc(done: seq<string>, line: string)
    ensures LocalCount(done + [line]) == LocalCount(done) + (if IsLocalRequirement(line) then 1 else 0)
  {
    assert (done + [line])[..|done|] == done;
  }

  /** The same step on a container holding the mounts. */
  lemma MountedSnoc(settings: GlobalSettings, pythonDefaults: seq<string>, path: string,
                    done: seq<string>, line: string, base: Container)
    ensures var before := WithAll(base, LocalMounts(settings, pythonDefaults, path, done));
      WithAll(base, LocalMounts(settings, pythonDefaults, path, done + [line])) ==
      if IsLocalRequirement(line) then With(before, LocalMount(settings, pythonDefaults, path, line)) else before
  {
    LocalMountsSnoc(settings, pythonDefaults, path, done, line);
    var mounts := LocalMounts(settings, pythonDefaults, path, done);
    if IsLocalRequirement(line) {
      var op := LocalMount(settings, pythonDefaults, path, line);
      assert base.ops + (mounts + [op]) == base.ops + mounts + [op];
    }
  }

  /** The mount of one local requirement, from the directory `get_repo_dir`
      selects with the settings' Python defaults list, which it extends in
      place once more. */
  method MountLocalRequirement(settings: GlobalSettings, path: string, line: string,
                               ghost initial: seq<string>, ghost k: nat)
    returns (op: Op)
    requires IsLocalRequirement(line)
    requires settings.defaultPythonExclude.items == initial + Repeat(settings.defaultExcludedFiles, k)
    modifies settings.defaultPythonExclude
    ensures op == LocalMount(settings, initial, path, line)
    ensures settings.defaultPythonExclude.items == initial + Repeat(settings.defaultExcludedFiles, k + 1)
  {
    var local := path + "/" + line[3..];
    var dir := GetRepoDir(settings, local, settings.defaultPythonExclude, None);
    RepoDirGrown(settings.defaultExcludedFiles, local, initial, k, None);
    RepeatMore(initial, settings.defaultExcludedFiles, k);
    op := MountedDirectory("/" + local, dir);
  }

  /** Line `i` of requirements.txt, after the lines before it: a local
      requirement is mounted on the container, and the settings' Python
      defaults list grows once more; any other line changes nothing. */
  method MountStep(settings: GlobalSettings, path: string, lines: seq<string>, i: nat, base: Container,
                   container: Container, ghost initial: seq<string>, ghost k: nat, ghost k': nat)
    returns (next: Container)
    requires i < |lines|
    requires container == WithAll(base, LocalMounts(settings, initial, path, lines[..i]))
    requires settings.defaultPythonExclude.items == initial + Repeat(settings.defaultExcludedFiles, k)
    requires k' == k + if IsLocalRequirement(lines[i]) then 1 else 0
    modifies settings.defaultPythonExclude
    ensures next == WithAll(base, LocalMounts(settings, initial, path, lines[..i + 1]))
    ensures settings.defaultPythonExclude.items == initial + Repeat(settings.defaultExcludedFiles, k')
  {
    var line := lines[i];
    PrefixSnoc(lines, i);
    MountedSnoc(settings, initial, path, lines[..i], line, base);
    if IsLocalRequirement(line) {
      var op := MountLocalRequirement(settings, path, line, initial, k);
      next := With(container, op);
    } else {
      next := container;
    }
  }

  /** Line `i` of requirements.txt: the list has grown once per local
      requirement before it, and still does after it. */
  method MountLine(settings: GlobalSettings, path: string, lines: seq<string>, i: nat, base: Container,
                   container: Container, ghost initial: seq<string>, ghost k0: nat)
    returns (next: Container)
    requires i < |lines|
    requires container == WithAll(base, LocalMounts(settings, initial, path, lines[..i]))
    requires settings.defaultPythonExclude.items == initial + Repeat(settings.defaultExcludedFiles, k0 + LocalCount(lines[..i]))
    modifies settings.defaultPythonExclude
    ensures next == WithAll(base, LocalMounts(settings, initial, path, lines[..i + 1]))
    ensures settings.defaultPythonExclude.items == initial + Repeat(settings.defaultExcludedFiles, k0 + LocalCount(lines[..i + 1]))
  {
    LocalCountStep(lines, i);
    ghost var k, k' := k0 + LocalCount(lines[..i]), k0 + LocalCount(lines[..i + 1]);
    next := MountStep(settings, path, lines, i, base, container, initial, k, k');
    assert settings.defaultPythonExclude.items == initial + Repeat(settings.defaultExcludedFiles, k');
  }

  /** The loop of `with_installed_python_package` over the lines of
      requirements.txt: each local requirement is mounted in turn, and the
      settings' Python defaults list grows by the default excluded files each
      time. */
  method MountLocalRequirements(settings: GlobalSettings, path: string, lines: seq<string>, base: Container,
                                ghost initial: seq<string>, ghost k0: nat)
    returns (container: Container)
    requires settings.defaultPythonExclude.items == initial + Repeat(settings.defaultExcludedFiles, k0)
    modifies settings.defaultPythonExclude
    ensures container == WithAll(base, LocalMounts(settings, initial, path, lines))
    ensures settings.defaultPythonExclude.items ==
            initial + Repeat(settings.defaultExcludedFiles, k0 + LocalCount(lines))
  {
    container := base;
    assert lines[..0] == [] && base.ops + [] == base.ops;
    for i := 0 to |lines|
      invariant settings.defaultPythonExclude.items == initial + Repeat(settings.defaultExcludedFiles, k0 + LocalCount(lines[..i]))
      invariant container == WithAll(base, LocalMounts(settings, initial, path, lines[..i]))
    {
      container := MountLine(settings, path, lines, i, base, container, initial, k0);
    }
    assert lines[..|lines|] == lines;
  }

  /** The requirements step of `with_installed_python_package` when
      requirements.txt has content: its local requirements are mounted, then
      the requirements installed. */
  method InstallRequirements(settings: GlobalSettings, path: string, base: Container, lines: seq<string>,
                             ghost initial: seq<string>, ghost k0: nat)
    returns (container: Container)
    requires settings.defaultPythonExclude.items == initial + Repeat(settings.defaultExcludedFiles, k0)
    modifies settings.defaultPythonExclude
    ensures container == WithAll(base, LocalMounts(settings, initial, path, lines) + [Exec(RequirementsInstall)])
    ensures settings.defaultPythonExclude.items ==
            initial + Repeat(settings.defaultExcludedFiles, k0 + LocalCount(lines))
  {
    ghost var mounts := LocalMounts(settings, initial, path, lines);
    container := MountLocalRequirements(settings, path, lines, base, initial, k0);
    container := With(container, Exec(RequirementsInstall));
    assert container.ops == base.ops + (mounts + [Exec(RequirementsInstall)]);
  }

  /** What requirements.txt adds to the package container: nothing when it is
      missing or empty, otherwise its local mounts and the requirements
      install. */
  method RequirementsStep(settings: GlobalSettings, path: string, base: Container, contents: Option<string>,
                          ghost initial: seq<string>, ghost k0: nat)
    returns (container: Container)
    requires settings.defaultPythonExclude.items == initial + Repeat(settings.defaultExcludedFiles, k0)
    modifies settings.defaultPythonExclude
    ensures container == WithRequirements(settings, initial, path, base, Requirements(contents))
    ensures settings.defaultPythonExclude.items ==
            initial + Repeat(settings.defaultExcludedFiles, k0 + RequirementsCount(Requirements(contents)))
  {
    if contents.Some? && contents.value != "" {
      assert Requirements(contents) == Some(contents.value);
      container := InstallRequirements(settings, path, base, Split(contents.value, '\n'), initial, k0);
    } else {
      assert Requirements(contents) == None;
      container := base;
    }
  }

  /** `with_installed_python_package`. The settings' Python defaults list is
      passed to `get_repo_dir` for each local requirement and grows by the
      default excluded files each time; since those are added again and
      duplicates dropped anyway, every mount still gets the patterns the list
      held on entry. */
  method WithInstalledPythonPackage(settings: GlobalSettings, env: Container, path: string,
                                    groups: Option<seq<string>>, exclude: Option<seq<string>>, read: FileRead)
    returns (r: Result<Container>)
    modifies settings.defaultPythonExclude
    ensures r == InstalledPythonPackage(settings, old(settings.defaultPythonExclude.items), env, path, groups, exclude, read)
    ensures settings.defaultPythonExclude.items ==
      old(settings.defaultPythonExclude.items) + Repeat(settings.defaultExcludedFiles, Extensions(exclude, read))
  {
    ghost var initial := settings.defaultPythonExclude.items;
    ghost var k: nat := if Given(exclude) then 0 else 1;
    var container := WithPythonPackage(settings, env, path, exclude);
    RepeatOnce(initial, settings.defaultExcludedFiles);
    r := InstallRequirementsAndPackage(settings, path, container, groups, read, initial, k, Extensions(exclude, read));
  }

  /** Everything after the package mount: read requirements.txt, mount and
      install the requirements, install the package. Each local requirement
      extends the settings' Python defaults list once more. */
  method InstallRequirementsAndPackage(settings: GlobalSettings, path: string, base: Container,
                                       groups: Option<seq<string>>, read: FileRead,
                                       ghost initial: seq<string>, ghost k0: nat, ghost total: nat)
    returns (r: Result<Container>)
    requires settings.defaultPythonExclude.items == initial + Repeat(settings.defaultExcludedFiles, k0)
    requires total == k0 + ReadCount(read)
    modifies settings.defaultPythonExclude
    ensures r == InstallFrom(settings, initial, base, path, groups, read)
    ensures settings.defaultPythonExclude.items == initial + Repeat(settings.defaultExcludedFiles, total)
  {
    var contents := GetFileContents(read);
    if contents.Err? {
      return Err(contents.error);
    }
    var container := RequirementsStep(settings, path, base, contents.value, initial, k0);
    container := InstallPackage(container, groups);
    r := Ok(container);
  }

  /** The package install, then the install with extras when extra groups are
      given. */
  method InstallPackage(base: Container, groups: Option<seq<string>>) returns (container: Container)
    ensures container == WithPackageInstall(base, groups)
  {
    container := With(base, Exec(PackageInstall));
    if groups.Some? && groups.value != [] {
      container := With(container, Exec(ExtrasInstall(groups.value)));
    }
  }

  // -------------------------------------------------------------- Packages

  /** `with_alpine_packages`. */
  function AlpinePackages(ctr: Container, packages: seq<string>): (r: Container)
    ensures r.ops == ctr.ops + [Exec(["apk", "add"] + packages)]
  {
    With(ctr, Exec(["apk", "add"] + packages))
  }

  /** `with_debian_packages`: the package index is updated first. */
  function DebianPackages(ctr: Container, packages: seq<string>): (r: Container)
    ensures r.ops == ctr.ops + [Exec(["apt-get", "update"]), Exec(["apt-get", "install", "-y"] + packages)]
  {
    With(With(ctr, Exec(["apt-get", "update"])), Exec(["apt-get", "install", "-y"] + packages))
  }

  /** `with_pip_packages`: the same shape as `with_alpine_packages`, with pip
      as the installer. */
  function PipPackages(ctr: Container, packages: seq<string>): (r: Container)
    ensures r.ops == ctr.ops + [Exec(["pip", "install"] + packages)]
  {
    With(ctr, Exec(["pip", "install"] + packages))
  }

  /** Each helper adds commands only, keeps what the container held, and names
      the packages at the end of its install command, in the order given. */
  lemma PackageCommands(ctr: Container, packages: seq<string>)
    ensures Execs(AlpinePackages(ctr, packages).ops) == Execs(ctr.ops) + [["apk", "add"] + packages]
    ensures Execs(DebianPackages(ctr, packages).ops) ==
            Execs(ctr.ops) + [["apt-get", "update"], ["apt-get", "install", "-y"] + packages]
    ensures Execs(PipPackages(ctr, packages).ops) == Execs(ctr.ops) + [["pip", "install"] + packages]
  {
    ExecsSingle(Exec(["apk", "add"] + packages));
    ExecsAppend(ctr.ops, [Exec(["apk", "add"] + packages)]);
    var update := Exec(["apt-get", "update"]);
    var install := Exec(["apt-get", "install", "-y"] + packages);
    ExecsSingle(update);
    ExecsSingle(install);
    ExecsAppend(ctr.ops, [update]);
    ExecsAppend(ctr.ops + [update], [install]);
    assert DebianPackages(ctr, packages).ops == ctr.ops + [update] + [install];
    ExecsSingle(Exec(["pip", "install"] + packages));
    ExecsAppend(ctr.ops, [Exec(["pip", "install"] + packages)]);
  }

  const PoetryCache: Op := MountedCache("/root/.cache/pypoetry", CacheVolume("poetry_cache"))

  /** `with_poetry`, given the Python image it starts from. */
  function Poetry(pythonImage: string): (r: Result<Container>)
    ensures r.Err? <==> !StartsWith(pythonImage, "python:3")
    ensures r.Ok? ==> |r.value.ops| >= 1 && r.value.ops[0] == From(pythonImage) && r.value.ops[|r.value.ops| - 1] == PoetryCache
  {
    match PythonBase(pythonImage)
    case Err(e) => Err(e)
    case Ok(base) => Ok(With(PipPackages(DebianPackages(base, ["git"]), ["poetry"]), PoetryCache))
  }

  /** Poetry is installed with pip on top of git, on top of the Python base. */
  lemma PoetryCommands(pythonImage: string)
    requires StartsWith(pythonImage, "python:3")
    ensures Execs(Poetry(pythonImage).value.ops) ==
      [PipUpgrade, ["apt-get", "update"], ["apt-get", "install", "-y", "git"], ["pip", "install", "poetry"]]
  {
    var base := PythonBase(pythonImage).value;
    PythonBaseExecs(pythonImage);
    var withGit := DebianPackages(base, ["git"]);
    PackageCommands(base, ["git"]);
    var withPoetry := PipPackages(withGit, ["poetry"]);
    PackageCommands(withGit, ["poetry"]);
    ExecsSingle(PoetryCache);
    ExecsAppend(withPoetry.ops, [PoetryCache]);
    PoetryArgs();
  }

  /** The Python base runs one command, the pip upgrade. */
  lemma PythonBaseExecs(pythonImage: string)
    requires StartsWith(pythonImage, "python:3")
    ensures Execs(PythonBase(pythonImage).value.ops) == [PipUpgrade]
  {
    var from := From(pythonImage);
    var pipCache := MountedCache("/root/.cache/pip", CacheVolume("pip_cache"));
    assert PythonBase(pythonImage).value.ops == [from, pipCache] + [Exec(PipUpgrade)];
    ExecsNone([from, pipCache]);
    ExecsSingle(Exec(PipUpgrade));
    ExecsAppend([from, pipCache], [Exec(PipUpgrade)]);
  }

  lemma PoetryArgs()
    ensures [PipUpgrade] + [["apt-get", "update"], ["apt-get", "install", "-y"] + ["git"]] + [["pip", "install"] + ["poetry"]] ==
      [PipUpgrade, ["apt-get", "update"], ["apt-get", "install", "-y", "git"], ["pip", "install", "poetry"]]
  {
    assert ["apt-get", "install", "-y"] + ["git"] == ["apt-get", "install", "-y", "git"];
    assert ["pip", "install"] + ["poetry"] == ["pip", "install", "poetry"];
  }

  // ---------------------------------------------------------- Docker host

  const DockerHostName: string := "global-docker-host"

  /** `with_bound_docker_host`: the dockerd service must be running. */
  function BoundDockerHost(ctr: Container, dockerd: Option<Service>): (r: Result<Container>)
    ensures r.Err? <==> dockerd.None?
    ensures r.Err? ==> r.error == AssertionError
    ensures r.Ok? ==> r.value.ops == ctr.ops + [
      EnvVariable("DOCKER_HOST", "tcp://" + DockerHostName + ":2375"),
      ServiceBinding(DockerHostName, dockerd.value),
      MountedCache("/tmp", CacheVolume("shared-tmp"))]
  {
    if dockerd.None? then Err(AssertionError)
    else
      Ok(WithAll(ctr, [EnvVariable("DOCKER_HOST", "tcp://" + DockerHostName + ":2375"),
                       ServiceBinding(DockerHostName, dockerd.value),
                       MountedCache("/tmp", CacheVolume("shared-tmp"))]))
  }

  /** `with_bound_docker_host_and_authenticated_client`: the dockerd service
      must be running, and reading a Docker Hub credential that is not set
      fails. */
  function AuthenticatedDockerHost(ctr: Container, settings: GlobalSettings, dockerd: Option<Service>)
    : (r: Result<Container>)
    ensures r.Err? <==> dockerd.None? || settings.secretDockerHubUsername.None? || settings.secretDockerHubPassword.None?
    ensures r.Err? ==> r.error == (if dockerd.None? then AssertionError else AttributeError)
    ensures r.Ok? ==> |r.value.ops| == |ctr.ops| + 6 && r.value.ops[..|ctr.ops|] == ctr.ops
  {
    if dockerd.None? then Err(AssertionError)
    else if settings.secretDockerHubUsername.None? || settings.secretDockerHubPassword.None? then Err(AttributeError)
    else
      var user := Secret("docker_hub_username", settings.secretDockerHubUsername.value);
      var password := Secret("docker_hub_password", settings.secretDockerHubPassword.value);
      Ok(WithAll(BoundDockerHost(ctr, dockerd).value,
                 [SecretVariable("DOCKER_USERNAME", user), SecretVariable("DOCKER_PASSWORD", password),
                  Exec(["sh", "-c", "docker login -u $DOCKER_USERNAME -p $DOCKER_PASSWORD"])]))
  }

  /** The authenticated binding is the plain binding followed by the two
      credentials, passed only as secrets, and the login. */
  lemma AuthenticatedExtendsBound(ctr: Container, settings: GlobalSettings, dockerd: Option<Service>)
    requires AuthenticatedDockerHost(ctr, settings, dockerd).Ok?
    ensures var bound := BoundDockerHost(ctr, dockerd);
      var auth := AuthenticatedDockerHost(ctr, settings, dockerd).value;
      bound.Ok? && |auth.ops| == |bound.value.ops| + 3 && auth.ops[..|bound.value.ops|] == bound.value.ops &&
      auth.ops[|bound.value.ops|] == SecretVariable("DOCKER_USERNAME", Secret("docker_hub_username", settings.secretDockerHubUsername.value)) &&
      auth.ops[|bound.value.ops| + 1] == SecretVariable("DOCKER_PASSWORD", Secret("docker_hub_password", settings.secretDockerHubPassword.value))
  {
  }

  // ---------------------------------------------------------------- Gradle

  const GradleInclude: seq<string> := [
    ".root", ".env", ".env.dev", "build.gradle", "deps.toml", "gradle.properties", "gradle", "gradlew",
    "LICENSE_SHORT", "publish-repositories.gradle", "settings.gradle", "build.gradle", "tools/gradle",
    "spotbugs-exclude-filter-file.xml", "buildSrc", "tools/bin/build_image.sh", "tools/lib/lib.sh"]

  const GradleExclude: seq<string> := ["buildSrc/.gradle", "ci/**"]

  /** An entry placed under `directory` when one is given. */
  function Under(directory: Option<string>, x: string): string {
    if directory.Some? && directory.value != "" then directory.value + "/" + x else x
  }

  /** The Gradle source list: the base list, then the caller's extra entries
      (duplicates kept), each placed under `directory` when one is given. */
  function GradleSources(base: seq<string>, extra: Option<seq<string>>, directory: Option<string>)
    : (r: seq<string>)
    ensures |r| == |base| + (if Given(extra) then |extra.value| else 0)
    ensures forall i :: 0 <= i < |base| ==> r[i] == Under(directory, base[i])
    ensures Given(extra) ==> forall i :: 0 <= i < |extra.value| ==> r[|base| + i] == Under(directory, extra.value[i])
  {
    var all := if Given(extra) then base + extra.value else base;
    seq(|all|, i requires 0 <= i < |all| => Under(directory, all[i]))
  }

  /** The base include list names "build.gradle" twice and the list is not
      deduplicated, so the mounted directory's include list does too. */
  lemma GradleIncludeDuplicate(extra: Option<seq<string>>, directory: Option<string>)
    ensures var r := GradleSources(GradleInclude, extra, directory);
      r[3] == r[11] == Under(directory, "build.gradle")
  {
  }

  /** The first ten steps of `with_gradle`: the JDK image, the tools, Docker,
      the Gradle home and the repository mounted with the Gradle patterns. */
  function GradlePrepared(settings: GlobalSettings, gradleHome: string, cachePath: string,
                          excludes: seq<string>, includes: seq<string>): (c: Container)
    ensures |c.ops| == 10 && c.ops[0] == From("openjdk:17.0.1-jdk-slim")
    ensures c.ops[7] == WithDirectory("/airbyte", RepoDir(settings.defaultExcludedFiles, ".", Some(excludes), Some(includes)))
  {
    Container([
      From("openjdk:17.0.1-jdk-slim"),
      Exec(["bin/bash", "-c", "apt-get update && apt-get install -y curl jq rsync nodejs npm"]),
      EnvVariable("VERSION", settings.dockerVersion),
      Exec(["sh", "-c", "curl -fsSL https://get.docker.com | sh"]),
      EnvVariable("GRADLE_HOME", gradleHome),
      Exec(["mkdir", "/airbyte"]),
      Workdir("/airbyte"),
      WithDirectory("/airbyte", RepoDir(settings.defaultExcludedFiles, ".", Some(excludes), Some(includes))),
      Exec(["mkdir", "-p", gradleHome]),
      MountedCache(cachePath, CacheVolume("gradle-cache"))])
  }

  /** `with_gradle`, with the Gradle home and the cache mount path passed in. */
  function Gradle(settings: GlobalSettings, gradleHome: string, cachePath: string,
                  sourcesToInclude: Option<seq<string>>, sourcesToExclude: Option<seq<string>>,
                  bindToDockerHost: bool, directory: Option<string>, dockerd: Option<Service>)
    : (r: Result<Container>)
    ensures !bindToDockerHost ==> r.Ok?
    ensures r.Ok? ==> |r.value.ops| >= 12 && r.value.ops[0] == From("openjdk:17.0.1-jdk-slim")
    ensures r.Ok? ==> r.value.ops[7] == WithDirectory("/airbyte",
      RepoDir(settings.defaultExcludedFiles, ".", Some(GradleSources(GradleExclude, sourcesToExclude, directory)),
              Some(GradleSources(GradleInclude, sourcesToInclude, directory))))
    ensures bindToDockerHost ==> (r.Err? <==> dockerd.None? || settings.secretDockerHubUsername.None? ||
                                               settings.secretDockerHubPassword.None?)
  {
    var includes := GradleSources(GradleInclude, sourcesToInclude, directory);
    var excludes := GradleSources(GradleExclude, sourcesToExclude, directory);
    var prepared := GradlePrepared(settings, gradleHome, cachePath, excludes, includes);
    var synced := SyncFromCache(cachePath, gradleHome, prepared);
    PrefixOfPrefix(synced.ops, prepared.ops, prepared.ops);
    if bindToDockerHost then
      var r := AuthenticatedDockerHost(synced, settings, dockerd);
      if r.Ok? then
        PrefixOfPrefix(r.value.ops, synced.ops, prepared.ops);
        r
      else r
    else Ok(synced)
  }

  /** `with_gradle` as written: it reads `settings.GRADLE_HOMEDIR_PATH`, which
      `GlobalSettings` does not declare, before the repository directory is
      even requested, so it fails with AttributeError whatever it is given. */
  function GradleAsWritten(settings: GlobalSettings,
                           sourcesToInclude: Option<seq<string>>, sourcesToExclude: Option<seq<string>>,
                           bindToDockerHost: bool, directory: Option<string>, dockerd: Option<Service>)
    : (r: Result<Container>)
    ensures r == Err(AttributeError)
  {
    Err(AttributeError)
  }

  /** Without the docker host, the recipe with the Gradle home and cache path
      supplied always builds, while the function as written never does. */
  lemma GradleDiscrepancy(settings: GlobalSettings, gradleHome: string, cachePath: string,
                          sourcesToInclude: Option<seq<string>>, sourcesToExclude: Option<seq<string>>,
                          directory: Option<string>, dockerd: Option<Service>)
    ensures Gradle(settings, gradleHome, cachePath, sourcesToInclude, sourcesToExclude, false, directory, dockerd).Ok?
    ensures GradleAsWritten(settings, sourcesToInclude, sourcesToExclude, false, directory, dockerd).Err?
  {
  }

  /** The directory mounted for Gradle excludes exactly the Gradle patterns
      (the caller's extras included) and the default excluded files, each once. */
  lemma GradleExcludes(settings: GlobalSettings, gradleHome: string, cachePath: string,
                       sourcesToInclude: Option<seq<string>>, sourcesToExclude: Option<seq<string>>,
                       bindToDockerHost: bool, directory: Option<string>, dockerd: Option<Service>, x: string)
    requires Gradle(settings, gradleHome, cachePath, sourcesToInclude, sourcesToExclude, bindToDockerHost, directory, dockerd).Ok?
    ensures var d := Gradle(settings, gradleHome, cachePath, sourcesToInclude, sourcesToExclude,
                            bindToDockerHost, directory, dockerd).value.ops[7].dir;
      Distinct(d.excluded.value) &&
      (x in d.excluded.value <==>
        x in GradleSources(GradleExclude, sourcesToExclude, directory) || x in settings.defaultExcludedFiles)
  {
  }

  // ------------------------------------------------------------ Image load

  const LoadedPrefix: string := "Loaded image ID: sha256:"

  /** The image id `load_image_to_docker_host` reads from the output of
      `docker load`: when the output mentions "sha256:", the output without its
      newlines and without the "Loaded image ID: sha256:" prefix. */
  function ImageId(output: string): (r: Option<string>)
    ensures r.Some? <==> Contains(output, "sha256:")
    ensures r.Some? ==> '\n' !in r.value
  {
    if Contains(output, "sha256:") then
      var oneLine := Replace(output, "\n", "");
      ReplaceCharGone(output, '\n', "");
      NoNewlineAfterReplace(oneLine, LoadedPrefix);
      Some(Replace(oneLine, LoadedPrefix, ""))
    else None
  }

  /** Deleting a pattern from a text without newlines adds none. */
  lemma {:induction false} NoNewlineAfterReplace(s: string, pattern: string)
    requires '\n' !in s && pattern != []
    ensures '\n' !in Replace(s, pattern, "")
    decreases |s|
  {
    if |s| >= |pattern| {
      if s[..|pattern|] == pattern {
        NoNewlineAfterReplace(s[|pattern|..], pattern);
      } else {
        assert s[0] in s;
        NoNewlineAfterReplace(s[1..], pattern);
      }
    }
  }

  lemma LoadedLineMentionsHash(hash: string)
    ensures Contains(LoadedPrefix + hash + "\n", "sha256:")
  {
    var output := LoadedPrefix + hash + "\n";
    assert output[17..24] == LoadedPrefix[17..24] == "sha256:";
    ContainsAt(output, "sha256:", 17);
  }

  lemma LoadedLineJoined(hash: string)
    requires '\n' !in hash
    ensures Replace(LoadedPrefix + hash + "\n", "\n", "") == LoadedPrefix + hash
  {
    var line := LoadedPrefix + hash;
    assert '\n' !in LoadedPrefix;
    assert '\n' !in line;
    ReplaceCharAt(line, '\n', "", "");
    assert line + "\n" == line + ['\n'] + "";
  }

  /** The id of an untagged image comes back out of the line `docker load`
      prints for it. */
  lemma ImageIdRoundTrip(hash: string)
    requires '\n' !in hash && !Contains(hash, LoadedPrefix)
    ensures ImageId(LoadedPrefix + hash + "\n") == Some(hash)
  {
    LoadedLineMentionsHash(hash);
    LoadedLineJoined(hash);
    ReplaceLeading(LoadedPrefix, hash);
  }

  /** The tag command run for an untagged image. */
  function TagCommand(output: string, imageTag: string): (r: Option<seq<string>>)
    ensures r.Some? <==> Contains(output, "sha256:")
    ensures r.Some? ==> r.value == ["docker", "tag", ImageId(output).value, imageTag]
  {
    match ImageId(output)
    case None => None
    case Some(id) => Some(["docker", "tag", id, imageTag])
  }

  // ------------------------------------------------------ TypeScript action

  /** The `str()` of each field of the input settings. */
  function InputEnv(fields: Dict<string, InputValue>): (r: Dict<string, SettingValue>)
    ensures Keys(r) == Keys(fields) && |r| == |fields|
    ensures forall i :: 0 <= i < |r| ==> r[i].0 == fields[i].0
    ensures forall i :: 0 <= i < |r| ==> r[i].1 == PlainValue(InputStr(fields[i].1))
  {
    seq(|fields|, i requires 0 <= i < |fields| => (fields[i].0, PlainValue(InputStr(fields[i].1))))
  }

  /** The entries `GithubActionsInputSettings(global_settings, **data)` is
      built from, in the order `__init__` assembles them (renamed inputs, then
      the context), each by its `str()`; none is None. The key order of the
      pydantic `.dict()` itself, which lists the declared `GITHUB_*` fields
      first, is not modelled. */
  function GhaInputs(gs: GlobalSettings, data: Dict<string, InputValue>): (r: Dict<string, SettingValue>)
    ensures Keys(r) == Keys(InputSettingsData(gs, data))
    ensures |r| == |InputSettingsData(gs, data)|
    ensures forall i :: 0 <= i < |r| ==> r[i].1.PlainValue?
    ensures forall i :: 0 <= i < |r| ==>
      r[i] == (InputSettingsData(gs, data)[i].0, PlainValue(InputStr(InputSettingsData(gs, data)[i].1)))
  {
    var fields := InputSettingsData(gs, data);
    var r := InputEnv(fields);
    assert forall i :: 0 <= i < |r| ==> r[i] == (fields[i].0, PlainValue(InputStr(fields[i].1)));
    r
  }

  /** The release archive of a GitHub repository and its local file name. */
  function ActionUrl(githubRepo: string, releaseVersion: string): string {
    "https://github.com/" + githubRepo + "/archive/refs/tags/" + releaseVersion + ".tar.gz"
  }

  function ArchiveName(githubRepo: string, releaseVersion: string): string {
    LastSegment(githubRepo, '/') + "-" + releaseVersion + ".tar.gz"
  }

  /** The commands `with_typescript_gha` runs after loading the inputs. */
  function GhaCommands(githubRepo: string, releaseVersion: string, eventPath: string): (cmds: seq<seq<string>>)
    ensures |cmds| == 8 && cmds[7] == ["node", "dist/index.js"]
    ensures |cmds[1]| == 5 && |cmds[2]| == 4 && cmds[1][3] == cmds[2][3] == ArchiveName(githubRepo, releaseVersion)
  {
    var filename := ArchiveName(githubRepo, releaseVersion);
    [["printenv"],
     ["curl", "-L", "-o", filename, ActionUrl(githubRepo, releaseVersion)],
     ["tar", "--strip-components=1", "-xzf", filename],
     ["chown", "-R", "node:node", "/input"],
     ["chown", "-R", "node:node", eventPath],
     ["chmod", "755", "/input"],
     ["chmod", "755", eventPath],
     ["node", "dist/index.js"]]
  }

  function ExecAll(cmds: seq<seq<string>>): (ops: seq<Op>)
    ensures |ops| == |cmds| && forall i :: 0 <= i < |cmds| ==> ops[i] == Exec(cmds[i])
  {
    seq(|cmds|, i requires 0 <= i < |cmds| => Exec(cmds[i]))
  }

  /** `with_typescript_gha`, given the loaded input settings and the event
      file path: a Node container with the action's input directory and the
      event file's directory mounted, the inputs loaded into its environment,
      and the action's release downloaded, unpacked and run. */
  function TypescriptGha(directory: Directory, githubRepo: string, releaseVersion: string,
                         inputs: Dict<string, SettingValue>, eventPath: string)
    : (c: Container)
    ensures |c.ops| == 3 + |Filtered(inputs, None, None)| + 8
    ensures c.ops[..3] == [From("node:latest"), WithDirectory("/input", directory),
                           WithDirectory(DirName(eventPath), HostDirectory(DirName(eventPath), None, None))]
    ensures c.ops[3..|c.ops| - 8] == EnvOps(Filtered(inputs, None, None))
    ensures c.ops[|c.ops| - 8..] == ExecAll(GhaCommands(githubRepo, releaseVersion, eventPath))
  {
    var mounted := [From("node:latest"), WithDirectory("/input", directory),
                    WithDirectory(DirName(eventPath), HostDirectory(DirName(eventPath), None, None))];
    var env := EnvOps(Filtered(inputs, None, None));
    var cmds := ExecAll(GhaCommands(githubRepo, releaseVersion, eventPath));
    Concat3(mounted, env, cmds);
    Container(mounted + env + cmds)
  }

  /** `with_typescript_gha` as written: it reads `inputs.GITHUB_EVENT_PATH`,
      an attribute the input settings have only if one of their fields is
      called so; the event file's path is that field's `str()`. */
  function TypescriptGhaAsWritten(directory: Directory, githubRepo: string, releaseVersion: string,
                                  gs: GlobalSettings, data: Dict<string, InputValue>)
    : (r: Result<Container>)
    ensures r.Ok? <==> "GITHUB_EVENT_PATH" in Keys(InputSettingsData(gs, data))
    ensures r.Err? ==> r.error == AttributeError
  {
    var eventPath := Get(InputSettingsData(gs, data), "GITHUB_EVENT_PATH");
    if eventPath.Some? then
      Ok(TypescriptGha(directory, githubRepo, releaseVersion, GhaInputs(gs, data), InputStr(eventPath.value)))
    else Err(AttributeError)
  }

  /** No input settings have that field, so the function as written always
      fails; the recipe given the event path builds its container for any path. */
  lemma TypescriptGhaDiscrepancy(directory: Directory, githubRepo: string, releaseVersion: string,
                                 gs: GlobalSettings, data: Dict<string, InputValue>)
    ensures TypescriptGhaAsWritten(directory, githubRepo, releaseVersion, gs, data) == Err(AttributeError)
  {
    NoEventPathField(gs, data);
  }

  /** The action is run last, after downloading its archive to the very file
      the next command unpacks. */
  lemma TypescriptGhaRuns(directory: Directory, githubRepo: string, releaseVersion: string,
                          inputs: Dict<string, SettingValue>, eventPath: string)
    ensures var c := TypescriptGha(directory, githubRepo, releaseVersion, inputs, eventPath);
      var n := |c.ops|;
      n >= 8 && c.ops[n - 1] == Exec(["node", "dist/index.js"]) &&
      c.ops[n - 7].Exec? && c.ops[n - 6].Exec? &&
      |c.ops[n - 7].args| == 5 && |c.ops[n - 6].args| == 4 &&
      c.ops[n - 7].args[3] == c.ops[n - 6].args[3] == ArchiveName(githubRepo, releaseVersion)
  {
    var c := TypescriptGha(directory, githubRepo, releaseVersion, inputs, eventPath);
    var cmds := GhaCommands(githubRepo, releaseVersion, eventPath);
    var tail := c.ops[|c.ops| - 8..];
    assert tail == ExecAll(cmds);
    assert c.ops[|c.ops| - 1] == tail[7] == Exec(cmds[7]);
    assert c.ops[|c.ops| - 7] == tail[1] == Exec(cmds[1]);
    assert c.ops[|c.ops| - 6] == tail[2] == Exec(cmds[2]);
  }

  // ----------------------------------------------------------------- Crane

  const CraneLogin: seq<string> := ["sh", "-c", "crane auth login index.docker.io -u $DOCKER_HUB_USERNAME -p $DOCKER_HUB_PASSWORD"]

  /** A `SecretStr` setting in a boolean context: set and not empty. */
  predicate SecretGiven(s: Option<string>) {
    s.Some? && s.value != ""
  }

  /** `with_crane`, given the crane image: the Docker Hub login happens only
      when both credentials are given. */
  function Crane(settings: GlobalSettings, craneImage: string): (c: Container)
    ensures |c.ops| >= 1 && c.ops[0] == From(craneImage)
    ensures Execs(c.ops) == if SecretGiven(settings.secretDockerHubUsername) && SecretGiven(settings.secretDockerHubPassword)
                             then [CraneLogin] else []
  {
    var base := [From(craneImage)];
    ExecsSingle(From(craneImage));
    if SecretGiven(settings.secretDockerHubUsername) && SecretGiven(settings.secretDockerHubPassword) then
      var user := Secret("docker_hub_username", settings.secretDockerHubUsername.value);
      var password := Secret("docker_hub_password", settings.secretDockerHubPassword.value);
      var secrets := [SecretVariable("DOCKER_HUB_USERNAME", user), SecretVariable("DOCKER_HUB_PASSWORD", password)];
      ExecsNone(base + secrets);
      ExecsSingle(Exec(CraneLogin));
      ExecsAppend(base + secrets, [Exec(CraneLogin)]);
      Container(base + secrets + [Exec(CraneLogin)])
    else Container(base)
  }
}
