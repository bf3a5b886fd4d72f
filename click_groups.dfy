/**
 * The mutable command group of the CLI (`ClickGroup` in click_commands.py):
 * a registry of command models and subgroups that builds a click group on
 * request.
 */
module ClickGroups {
  import opened Wrappers
  import opened Dicts
  import opened ClickParams
  import opened ClickCommands
  import opened ClickUtils

  /** The keyword arguments a command's function receives: the call's own, less
      `global_option`, in their original order. */
  function DropGlobalOption<V>(kwargs: Dict<string, V>): (r: Dict<string, V>)
    ensures forall k :: Get(r, k) == if k == "global_option" then None else Get(kwargs, k)
    ensures "global_option" !in Keys(r)
    ensures Valid(kwargs) ==> Valid(r)
    ensures forall i :: 0 <= i < |r| ==> r[i] in kwargs
  {
    var r := FilterKeys(kwargs, k => k != "global_option");
    assert Get(r, "global_option") == None;
    r
  }

  /** The click group for a top-level group: the members that
      `map_pyd_grp_to_click_group` gives it, followed by the group's own
      options as its parameters. */
  function ClickGroupSpecOf(g: GroupModel): (r: Result<GroupSpec>)
    requires forall i :: 0 <= i < |g.options| ==> g.options[i].kind.OptionParam?
    ensures r.Ok? <==> GroupSpecOf(g).Ok?
    ensures r.Err? ==> r.error == TypeError
    ensures r.Ok? ==> r.value.name == g.name && r.value.members == GroupSpecOf(g).value.members
    ensures r.Ok? ==> |r.value.params| == |g.options|
    ensures r.Ok? ==> forall i :: 0 <= i < |g.options| ==> Some(r.value.params[i]) == ParamSpecOf(g.options[i])
  {
    match GroupSpecOf(g)
    case Err(e) => Err(e)
    case Ok(spec) => Ok(spec.(params := OptionSpecs(g.options)))
  }

  /** The click options for a list of option models, in order. */
  function OptionSpecs(opts: seq<ClickParam>): (r: seq<ParamSpec>)
    requires forall i :: 0 <= i < |opts| ==> opts[i].kind.OptionParam?
    ensures |r| == |opts|
    ensures forall i :: 0 <= i < |opts| ==> Some(r[i]) == ParamSpecOf(opts[i])
  {
    if opts == [] then [] else OptionSpecs(opts[..|opts| - 1]) + [OptionSpecOf(opts[|opts| - 1])]
  }

  /** The loop appending each group option to the click group's parameters. */
  method MapOptions(opts: seq<ClickParam>) returns (params: seq<ParamSpec>)
    requires forall i :: 0 <= i < |opts| ==> opts[i].kind.OptionParam?
    ensures params == OptionSpecs(opts)
  {
    params := [];
    for i := 0 to |opts|
      invariant params == OptionSpecs(opts[..i])
    {
      assert opts[..i + 1][..i] == opts[..i];
      var opt := MapOption(opts[i]);
      params := params + [opt];
    }
    assert opts[..|opts|] == opts;
  }

  class ClickGroup {
    var name: Option<string>
    var help: string
    var commands: Dict<string, CommandModel>
    var subgroups: Dict<string, GroupModel>
    var options: seq<ClickParam>

    /** Dictionaries hold each key once, a group is never named by the empty
        string, and the options are option models. */
    ghost predicate Valid()
      reads this
    {
      Dicts.Valid(commands) && Dicts.Valid(subgroups) && name != Some("") &&
      forall i :: 0 <= i < |options| ==> options[i].kind.OptionParam?
    }

    /** The group as a value, as a parent group stores it. */
    function Model(): GroupModel
      reads this
    {
      GroupModel(name, Some(help), commands, subgroups, options)
    }

    /** `ClickGroup(group_name=..., group_help=..., ...)`: an empty or missing name
        becomes None; missing commands and subgroups start empty. */
    constructor(groupName: Option<string>, groupHelp: string,
                initialCommands: Option<Dict<string, CommandModel>>,
                initialSubgroups: Option<Dict<string, GroupModel>>,
                initialOptions: seq<ClickParam>)
      requires initialCommands.Some? ==> Dicts.Valid(initialCommands.value)
      requires initialSubgroups.Some? ==> Dicts.Valid(initialSubgroups.value)
      requires forall i :: 0 <= i < |initialOptions| ==> initialOptions[i].kind.OptionParam?
      ensures name == (if groupName == Some("") then None else groupName)
      ensures help == groupHelp
      ensures commands == (if initialCommands.Some? then initialCommands.value else [])
      ensures subgroups == (if initialSubgroups.Some? then initialSubgroups.value else [])
      ensures options == initialOptions
      ensures Valid()
    {
      name := if groupName == Some("") then None else groupName;
      help := groupHelp;
      commands := if initialCommands.Some? then initialCommands.value else [];
      subgroups := if initialSubgroups.Some? then initialSubgroups.value else [];
      options := initialOptions;
    }

    /** `@group.command(metadata)` applied to `func`: registers the command built
        from the metadata under its name, replacing any command of that name, with
        `func` as its function. */
    method Command(meta: CommandMetadata, func: Callback)
      requires Valid()
      modifies this
      ensures commands == Put(old(commands), meta.name, CommandFrom(meta, Some(func)))
      ensures name == old(name) && help == old(help)
      ensures subgroups == old(subgroups) && options == old(options)
      ensures Valid()
    {
      PutValid(commands, meta.name, CommandFrom(meta, Some(func)));
      commands := Put(commands, meta.name, CommandFrom(meta, Some(func)));
    }

    /** Calling the decorated command: registers a fresh command built from the
        metadata, whose function is `func`, and returns the keyword arguments
        `func` is called with. */
    method Invoke<V>(meta: CommandMetadata, func: Callback, kwargs: Dict<string, V>)
      returns (callKwargs: Dict<string, V>)
      requires Valid()
      modifies this
      ensures callKwargs == DropGlobalOption(kwargs)
      ensures commands == Put(old(commands), meta.name, CommandFrom(meta, Some(func)))
      ensures name == old(name) && help == old(help)
      ensures subgroups == old(subgroups) && options == old(options)
      ensures Valid()
    {
      callKwargs := DropGlobalOption(kwargs);
      var instance := CommandFrom(meta, None);
      if instance.func.None? {
        instance := instance.(func := Some(func));
      }
      PutValid(commands, meta.name, instance);
      commands := Put(commands, meta.name, instance);
    }

    /** `add_group`: refuses a subgroup without a name or whose name is taken;
        otherwise appends it under its name. */
    method AddGroup(sub: GroupModel) returns (r: Result<Unit>)
      requires Valid()
      modifies this
      ensures r.Err? <==> sub.name.None? || sub.name.value == "" || sub.name.value in Keys(old(subgroups))
      ensures r.Err? ==> r.error == ValueError && subgroups == old(subgroups)
      ensures r.Ok? ==> subgroups == old(subgroups) + [(sub.name.value, sub)]
      ensures name == old(name) && help == old(help)
      ensures commands == old(commands) && options == old(options)
      ensures Valid()
    {
      if sub.name.None? || sub.name.value == "" {
        return Err(ValueError);
      }
      if sub.name.value in Keys(subgroups) {
        return Err(ValueError);
      }
      PutValid(subgroups, sub.name.value, sub);
      PutNew(subgroups, sub.name.value, sub);
      subgroups := Put(subgroups, sub.name.value, sub);
      r := Ok(Unit);
    }

    /** `click_group`: commands first, then subgroups, then the group's options. */
    method ClickGroupSpec() returns (r: Result<GroupSpec>)
      requires Valid()
      ensures r == ClickGroupSpecOf(Model())
    {
      var cms := MapCommands(commands);
      if cms.Err? {
        return Err(TypeError);
      }
      var sms := MapSubgroups(Model());
      if sms.Err? {
        return Err(TypeError);
      }
      var params := MapOptions(options);
      ghost var g := Model();
      assert GroupSpecOf(g) == Ok(GroupSpec(name, cms.value + sms.value, []));
      r := Ok(GroupSpec(name, cms.value + sms.value, params));
    }
  }

  /** Adding a child group to a fresh parent leaves exactly that child, stored
      under its name. */
  method AddSubgroupScenario() returns (parent: ClickGroup, child: GroupModel)
    ensures parent.subgroups == [("child", child)]
    ensures Get(parent.subgroups, "child") == Some(child)
  {
    parent := new ClickGroup(Some("parent"), "Parent group", None, None, []);
    var c := new ClickGroup(Some("child"), "Child group", None, None, []);
    child := c.Model();
    var r := parent.AddGroup(child);
    assert r.Ok?;
  }
}
