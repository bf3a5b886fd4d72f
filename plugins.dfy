/**
 * The plugin base class (plugins.py): a named set of command groups keyed by
 * their optional name, and the developer plugin's lookup of the working
 * directory's path relative to one of its base directories.
 */
module Plugins {
  import opened Wrappers
  import opened Text
  import opened Dicts
  import opened ClickCommands

  /** `get_relative_path` for a given working directory: for the first base
      directory that the working directory ends with, the working directory
      without its first `|base_dir|` characters; "" when none matches. */
  function RelativePath(baseDirs: seq<string>, cwd: string): (r: string)
    ensures (forall i :: 0 <= i < |baseDirs| ==> !EndsWith(cwd, baseDirs[i])) ==> r == ""
    ensures r == "" || exists i :: 0 <= i < |baseDirs| && EndsWith(cwd, baseDirs[i]) && r == cwd[|baseDirs[i]|..]
  {
    if baseDirs == [] then ""
    else if EndsWith(cwd, baseDirs[0]) then cwd[|baseDirs[0]|..]
    else RelativePath(baseDirs[1..], cwd)
  }

  /** The first matching base directory decides: earlier non-matching ones are
      skipped and later ones are never looked at. The result is |cwd| - |base_dir|
      long, and an empty base directory matches and gives the whole cwd. */
  lemma {:induction false} RelativePathFirstMatch(baseDirs: seq<string>, cwd: string, i: nat)
    requires i < |baseDirs| && EndsWith(cwd, baseDirs[i])
    requires forall j :: 0 <= j < i ==> !EndsWith(cwd, baseDirs[j])
    ensures RelativePath(baseDirs, cwd) == cwd[|baseDirs[i]|..]
    ensures |RelativePath(baseDirs, cwd)| == |cwd| - |baseDirs[i]|
    ensures baseDirs[i] == "" ==> RelativePath(baseDirs, cwd) == cwd
  {
    if i > 0 {
      assert !EndsWith(cwd, baseDirs[0]);
      RelativePathFirstMatch(baseDirs[1..], cwd, i - 1);
    }
  }

  /** The text kept is the front of the working directory cut at the length of
      the base directory, not the working directory with the base directory
      removed from its end. */
  lemma RelativePathExample()
    ensures RelativePath(["aircmd"], "/work/aircmd") == "aircmd"
    ensures RelativePath(["other", ""], "/work") == "/work"
    ensures RelativePath(["other"], "/work") == ""
  {
    assert EndsWith("/work/aircmd", "aircmd");
    assert !EndsWith("/work", "other");
    assert EndsWith("/work", "");
  }

  class Plugin {
    const name: string
    const baseDirs: seq<string>
    var groups: Dict<Option<string>, GroupModel>

    constructor(pluginName: string, dirs: seq<string>, initialGroups: Dict<Option<string>, GroupModel>)
      requires Dicts.Valid(initialGroups)
      ensures name == pluginName && baseDirs == dirs && groups == initialGroups
    {
      name := pluginName;
      baseDirs := dirs;
      groups := initialGroups;
    }

    /** `add_group` (and `DeveloperPlugin.add_group`, which only delegates):
        refuses a group whose name, None included, is already a key; otherwise
        appends that one key. */
    method AddGroup(g: GroupModel) returns (r: Result<Unit>)
      requires Dicts.Valid(groups)
      modifies this
      ensures r.Err? <==> g.name in Keys(old(groups))
      ensures r.Err? ==> r.error == ValueError && groups == old(groups)
      ensures r.Ok? ==> groups == old(groups) + [(g.name, g)]
      ensures Dicts.Valid(groups)
    {
      if g.name in Keys(groups) {
        return Err(ValueError);
      }
      PutValid(groups, g.name, g);
      PutNew(groups, g.name, g);
      groups := Put(groups, g.name, g);
      r := Ok(Unit);
    }

    /** `DeveloperPlugin.get_relative_path`, with the working directory passed in. */
    method GetRelativePath(cwd: string) returns (r: string)
      ensures r == RelativePath(baseDirs, cwd)
    {
      for i := 0 to |baseDirs|
        invariant RelativePath(baseDirs, cwd) == RelativePath(baseDirs[i..], cwd)
      {
        if EndsWith(cwd, baseDirs[i]) {
          return cwd[|baseDirs[i]|..];
        }
        assert baseDirs[i..][1..] == baseDirs[i + 1..];
      }
      r := "";
    }
  }
}
