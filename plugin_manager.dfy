/**
 * The plugin manager (plugin_manager.py): the list of installed plugin names
 * kept in a JSON file, the plugins loaded from the package entry points that
 * are on that list, and the command groups those plugins contribute.
 */
module PluginManagers {
  import opened Wrappers
  import opened Seqs
  import opened Dicts
  import opened ClickCommands

  /** What loading an entry point gives: a plugin object with its groups, or an
      object without a `groups` dictionary. */
  datatype LoadedPlugin =
    | PluginObject(groups: Dict<Option<string>, GroupModel>)
    | NoGroups

  /** An `aircmd.plugins` entry point; `load` is None when loading it raises. */
  datatype EntryPoint = EntryPoint(name: string, load: Option<LoadedPlugin>)

  /** The plugins file: absent, present but empty, or holding a JSON list of
      names. */
  datatype PluginFile = Missing | Empty | Stored(names: seq<string>)

  /** The file after `get_installed_plugins` has made sure it exists. */
  function Created(f: PluginFile): (r: PluginFile)
    ensures r != Missing
    ensures f != Missing ==> r == f
    ensures f == Missing ==> r == Stored([])
  {
    if f.Missing? then Stored([]) else f
  }

  /** The names `get_installed_plugins` returns for an existing file. */
  function InstalledNames(f: PluginFile): (names: seq<string>)
    ensures f.Stored? ==> names == f.names
    ensures !f.Stored? ==> names == []
  {
    if f.Stored? then f.names else []
  }

  /** `list.remove(x)`: drops the first occurrence of `x`, if there is one. */
  function RemoveFirst<T(==)>(s: seq<T>, x: T): (r: seq<T>)
    ensures x !in s ==> r == s
    ensures x in s ==> |r| == |s| - 1
  {
    if s == [] then []
    else if s[0] == x then s[1..]
    else [s[0]] + RemoveFirst(s[1..], x)
  }

  /** Removal cuts the list at the first occurrence: what comes before it and
      what comes after it are kept in order, and one copy of `x` is gone. */
  lemma {:induction false} RemoveFirstSpec<T>(s: seq<T>, x: T, i: nat)
    requires i < |s| && s[i] == x && x !in s[..i]
    ensures RemoveFirst(s, x) == s[..i] + s[i + 1..]
    ensures multiset(RemoveFirst(s, x)) == multiset(s) - multiset{x}
  {
    RemoveFirstCut(s, x, i);
    MultisetCut(s, i);
  }

  lemma {:induction false} RemoveFirstCut<T>(s: seq<T>, x: T, i: nat)
    requires i < |s| && s[i] == x && x !in s[..i]
    ensures RemoveFirst(s, x) == s[..i] + s[i + 1..]
  {
    if i == 0 {
      assert s[..0] + s[1..] == s[1..];
    } else {
      assert s[0] != x by { assert s[0] == s[..i][0]; }
      assert s[1..][..i - 1] == s[..i][1..];
      RemoveFirstCut(s[1..], x, i - 1);
      assert s[1..][i..] == s[i + 1..];
      AppendAssoc([s[0]], s[1..][..i - 1], s[i + 1..]);
      assert [s[0]] + s[1..][..i - 1] == s[..i];
    }
  }

  /** Cutting out one position removes one copy of its element. */
  lemma MultisetCut<T>(s: seq<T>, i: nat)
    requires i < |s|
    ensures multiset(s[..i] + s[i + 1..]) == multiset(s) - multiset{s[i]}
  {
    assert s == s[..i] + [s[i]] + s[i + 1..];
    assert multiset(s) == multiset(s[..i]) + multiset{s[i]} + multiset(s[i + 1..]);
  }

  /** The file after `add_installed_plugin(name)`: the name is appended, even if
      it is already listed. */
  function AfterAdd(f: PluginFile, name: string): (r: PluginFile)
    ensures r.Stored? && r.names == InstalledNames(Created(f)) + [name]
  {
    Stored(InstalledNames(Created(f)) + [name])
  }

  /** The file after `remove_installed_plugin(name)`: the first occurrence is
      removed; an unlisted name leaves the file as `get_installed_plugins` left
      it. */
  function AfterRemove(f: PluginFile, name: string): (r: PluginFile)
    ensures name in InstalledNames(Created(f)) ==> r.Stored? && r.names == RemoveFirst(InstalledNames(Created(f)), name)
    ensures name !in InstalledNames(Created(f)) ==> r == Created(f)
  {
    var installed := InstalledNames(Created(f));
    if name in installed then Stored(RemoveFirst(installed, name)) else Created(f)
  }

  /** The position of the first occurrence of `x`. */
  function FirstIndex<T(==)>(s: seq<T>, x: T): (i: nat)
    requires x in s
    ensures i < |s| && s[i] == x && x !in s[..i]
  {
    if s[0] == x then 0
    else
      var i := 1 + FirstIndex(s[1..], x);
      assert s[..i] == [s[0]] + s[1..][..i - 1];
      i
  }

  /** Installing then uninstalling a plugin gives back the same multiset of
      names, and the very same list when the plugin was not listed before. */
  lemma AddThenRemove(f: PluginFile, name: string)
    ensures multiset(InstalledNames(AfterRemove(AfterAdd(f, name), name))) == multiset(InstalledNames(Created(f)))
    ensures name !in InstalledNames(Created(f)) ==>
      InstalledNames(AfterRemove(AfterAdd(f, name), name)) == InstalledNames(Created(f))
  {
    var s := InstalledNames(Created(f));
    assert InstalledNames(Created(AfterAdd(f, name))) == s + [name];
    assert name in s + [name];
    AppendThenRemove(s, name);
  }

  /** Appending a name and removing its first occurrence. */
  lemma AppendThenRemove<T>(s: seq<T>, x: T)
    ensures multiset(RemoveFirst(s + [x], x)) == multiset(s)
    ensures x !in s ==> RemoveFirst(s + [x], x) == s
  {
    var t := s + [x];
    assert t[|s|] == x;
    if x in s {
      var i := FirstIndex(s, x);
      assert t[..i] == s[..i];
      RemoveFirstSpec(t, x, i);
      assert multiset(t) == multiset(s) + multiset{x};
    } else {
      assert t[..|s|] == s;
      RemoveFirstSpec(t, x, |s|);
      assert t[|s| + 1..] == [];
    }
  }

  /** The plugins `discover` loads: entry points in order, skipping those not
      installed and those whose loading fails; a later entry point of the same
      name replaces an earlier one. */
  function Discovered(eps: seq<EntryPoint>, installed: seq<string>): (r: Dict<string, LoadedPlugin>)
    ensures Dicts.Valid(r)
    ensures forall i :: 0 <= i < |r| ==> r[i].0 in installed
  {
    if eps == [] then []
    else
      var d := Discovered(eps[..|eps| - 1], installed);
      var e := eps[|eps| - 1];
      if e.name in installed && e.load.Some? then
        PutValid(d, e.name, e.load.value);
        var r := Put(d, e.name, e.load.value);
        assert forall i :: 0 <= i < |r| ==> r[i].0 == Keys(r)[i];
        assert forall i :: 0 <= i < |d| ==> d[i].0 == Keys(d)[i];
        r
      else d
  }

  /** One more entry point changes what is stored under `n` only when it is
      named `n`, installed and loads. */
  lemma DiscoveredStep(eps: seq<EntryPoint>, installed: seq<string>, n: string)
    requires eps != []
    ensures var e := eps[|eps| - 1];
      Get(Discovered(eps, installed), n) ==
        if e.name == n && n in installed && e.load.Some? then e.load
        else Get(Discovered(eps[..|eps| - 1], installed), n)
  {
  }

  /** A plugin is loaded exactly when it is installed and some entry point of
      its name loads. */
  lemma {:induction false} DiscoveredGet(eps: seq<EntryPoint>, installed: seq<string>, n: string)
    ensures Get(Discovered(eps, installed), n).Some? <==>
      n in installed && exists i :: 0 <= i < |eps| && eps[i].name == n && eps[i].load.Some?
  {
    if eps != [] {
      DiscoveredStep(eps, installed, n);
      DiscoveredGet(eps[..|eps| - 1], installed, n);
      LoadsSnoc(eps, n);
    }
  }

  /** Some entry point named `n` loads iff one before the last does or the
      last does. */
  lemma LoadsSnoc(eps: seq<EntryPoint>, n: string)
    requires eps != []
    ensures var front := eps[..|eps| - 1];
      (exists i :: 0 <= i < |eps| && eps[i].name == n && eps[i].load.Some?) <==>
      (exists i :: 0 <= i < |front| && front[i].name == n && front[i].load.Some?) ||
      (eps[|eps| - 1].name == n && eps[|eps| - 1].load.Some?)
  {
    var front := eps[..|eps| - 1];
    if exists i :: 0 <= i < |eps| && eps[i].name == n && eps[i].load.Some? {
      var i :| 0 <= i < |eps| && eps[i].name == n && eps[i].load.Some?;
      if i < |front| {
        assert front[i] == eps[i];
      }
    }
    if exists i :: 0 <= i < |front| && front[i].name == n && front[i].load.Some? {
      var i :| 0 <= i < |front| && front[i].name == n && front[i].load.Some?;
      assert eps[i] == front[i];
    }
  }

  /** The plugin kept under a name is the one loaded by the last entry point of
      that name that loads. */
  lemma {:induction false} DiscoveredLastWins(eps: seq<EntryPoint>, installed: seq<string>, n: string)
    requires Get(Discovered(eps, installed), n).Some?
    ensures exists i :: 0 <= i < |eps| && eps[i].name == n && eps[i].load == Get(Discovered(eps, installed), n) &&
                        (forall j :: i < j < |eps| && eps[j].name == n ==> eps[j].load.None?)
  {
    var front := eps[..|eps| - 1];
    var e := eps[|eps| - 1];
    var got := Get(Discovered(eps, installed), n);
    assert |front| == |eps| - 1;
    DiscoveredStep(eps, installed, n);
    if e.name == n && n in installed && e.load.Some? {
      assert eps[|eps| - 1].load == got;
    } else {
      assert got == Get(Discovered(front, installed), n);
      DiscoveredLastWins(front, installed, n);
      DiscoveredGet(front, installed, n);
      var i :| 0 <= i < |front| && front[i].name == n && front[i].load == got &&
               (forall j :: i < j < |front| && front[j].name == n ==> front[j].load.None?);
      assert forall j :: 0 <= j < |front| ==> front[j] == eps[j];
      assert n in installed;
      LastWinsExtend(eps, n, i, got);
    }
  }

  /** A last winner among all but the last entry point stays the last winner
      when the last one of that name does not load. */
  lemma LastWinsExtend(eps: seq<EntryPoint>, n: string, i: nat, got: Option<LoadedPlugin>)
    requires i < |eps| - 1 && eps[i].name == n && eps[i].load == got
    requires forall j :: i < j < |eps| - 1 && eps[j].name == n ==> eps[j].load.None?
    requires eps[|eps| - 1].name == n ==> eps[|eps| - 1].load.None?
    ensures forall j :: i < j < |eps| && eps[j].name == n ==> eps[j].load.None?
  {
  }

  /** The groups `get_command_groups` collects: every group of every loaded
      plugin, plugin by plugin; a plugin without groups contributes none. */
  function CommandGroups(plugins: Dict<string, LoadedPlugin>): (r: seq<GroupModel>)
    ensures forall g :: g in r <==>
      exists i :: 0 <= i < |plugins| && plugins[i].1.PluginObject? && g in Values(plugins[i].1.groups)
  {
    if plugins == [] then []
    else
      var front := plugins[..|plugins| - 1];
      var p := plugins[|plugins| - 1].1;
      assert forall i :: 0 <= i < |front| ==> front[i] == plugins[i];
      CommandGroups(front) + (if p.PluginObject? then Values(p.groups) else [])
  }

  class PluginManager {
    /** The installed packages' `aircmd.plugins` entry points. */
    const entryPoints: seq<EntryPoint>
    /** The contents of `~/.aircmd/plugins.json`. */
    var file: PluginFile
    var plugins: Dict<string, LoadedPlugin>

    /** Creating a manager discovers the plugins at once. */
    constructor(eps: seq<EntryPoint>, f: PluginFile)
      ensures entryPoints == eps && file == Created(f)
      ensures plugins == Discovered(eps, InstalledNames(Created(f)))
    {
      entryPoints := eps;
      file := f;
      plugins := [];
      new;
      Discover();
    }

    /** `get_installed_plugins`: creates the file holding an empty list if it is
        missing, then returns the names it holds. */
    method GetInstalledPlugins() returns (names: seq<string>)
      modifies this
      ensures file == Created(old(file)) && names == InstalledNames(file)
      ensures plugins == old(plugins)
    {
      if file.Missing? {
        file := Stored([]);
      }
      if file.Empty? {
        return [];
      }
      names := file.names;
    }

    /** `discover` (and `refresh`): clears the loaded plugins and loads every
        installed plugin's entry points in order. */
    method Discover()
      modifies this
      ensures file == Created(old(file))
      ensures plugins == Discovered(entryPoints, InstalledNames(file))
    {
      plugins := [];
      var installed := GetInstalledPlugins();
      for i := 0 to |entryPoints|
        invariant file == Created(old(file)) && installed == InstalledNames(file)
        invariant plugins == Discovered(entryPoints[..i], installed)
      {
        assert entryPoints[..i + 1][..i] == entryPoints[..i];
        var e := entryPoints[i];
        if e.name !in installed {
          continue;
        }
        if e.load.None? {
          continue;
        }
        plugins := Put(plugins, e.name, e.load.value);
      }
      assert entryPoints[..|entryPoints|] == entryPoints;
    }

    /** `add_installed_plugin`. */
    method AddInstalledPlugin(name: string)
      modifies this
      ensures file == AfterAdd(old(file), name)
      ensures plugins == old(plugins)
    {
      var installed := GetInstalledPlugins();
      installed := installed + [name];
      file := Stored(installed);
    }

    /** `remove_installed_plugin`: an unlisted name only leaves a message. */
    method RemoveInstalledPlugin(name: string)
      modifies this
      ensures file == AfterRemove(old(file), name)
      ensures plugins == old(plugins)
    {
      var installed := GetInstalledPlugins();
      if name in installed {
        installed := RemoveFirst(installed, name);
        file := Stored(installed);
      }
    }

    /** `get_command_groups`. */
    method GetCommandGroups() returns (groups: seq<GroupModel>)
      ensures groups == CommandGroups(plugins)
    {
      groups := [];
      for i := 0 to |plugins|
        invariant groups == CommandGroups(plugins[..i])
      {
        assert plugins[..i + 1][..i] == plugins[..i];
        var p := plugins[i].1;
        if p.NoGroups? {
          continue;
        }
        var vs := Values(p.groups);
        for j := 0 to |vs|
          invariant groups == CommandGroups(plugins[..i]) + vs[..j]
        {
          groups := groups + [vs[j]];
        }
        assert vs[..|vs|] == vs;
      }
      assert plugins[..|plugins|] == plugins;
    }
  }
}
