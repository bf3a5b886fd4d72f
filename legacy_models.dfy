/**
 * The older single-file models (models.py): a command group whose subgroups
 * are keyed by their optional name and mapped with their commands only, the
 * plugin base class with its group registry, and the application plugin's
 * check for required commands.
 */
module LegacyModels {
  import opened Wrappers
  import opened Dicts
  import opened ClickCommands
  import opened ClickUtils
  import opened ModelUtils

  /** An older-style `ClickGroup` value. */
  datatype LegacyGroup = LegacyGroup(
    name: Option<string>,
    help: Option<string>,
    commands: Dict<string, CommandModel>,
    subgroups: Dict<Option<string>, LegacyGroup>)

  /** An older-style `ClickCommandMetadata`: a name and an optional help, no
      parameter lists. */
  datatype LegacyCommandMetadata = LegacyCommandMetadata(name: string, help: Option<string>)

  /** `ClickCommand(**metadata.model_dump())`: the name and help of the
      metadata, the default empty parameter lists, and the function `f`. */
  function LegacyCommandFrom(meta: LegacyCommandMetadata, f: Option<Callback>): (c: CommandModel)
    ensures c.name == meta.name && c.help == meta.help && c.func == f
    ensures c.arguments == [] && c.options == [] && c.flags == []
  {
    CommandModel(meta.name, meta.help, [], [], [], f)
  }

  /** The member a subgroup becomes: a group holding its commands only. Click
      refuses to add a group without a name, with TypeError. */
  function LegacyMemberOf(sub: LegacyGroup): Result<Member> {
    if sub.name.None? then Err(TypeError)
    else
      match CommandsOnlySpec(sub.name, sub.commands)
      case Err(e) => Err(e)
      case Ok(spec) => Ok(GroupMember(spec))
  }

  /** The members for the subgroups, each mapped with its commands only. */
  function LegacySubgroupMembers(subs: Dict<Option<string>, LegacyGroup>): (r: Result<seq<Member>>)
    ensures r.Err? ==> r.error == TypeError
    ensures r.Ok? ==> |r.value| == |subs|
  {
    MapValues(subs, LegacyMemberOf, |subs|)
  }

  /** The subgroup members exist iff every subgroup has a name and its
      commands map, and then the i-th member is the i-th subgroup with its
      commands only. */
  lemma LegacySubgroupMembersSpec(subs: Dict<Option<string>, LegacyGroup>)
    ensures LegacySubgroupMembers(subs).Ok? <==>
      forall i :: 0 <= i < |subs| ==>
        subs[i].1.name.Some? && CommandsOnlySpec(subs[i].1.name, subs[i].1.commands).Ok?
    ensures LegacySubgroupMembers(subs).Ok? ==> forall i :: 0 <= i < |subs| ==>
      LegacySubgroupMembers(subs).value[i] ==
        GroupMember(CommandsOnlySpec(subs[i].1.name, subs[i].1.commands).value)
  {
    MapValuesSpec(subs, LegacyMemberOf, |subs|);
  }

  /** The click group of an older-style group: its commands, then one group per
      subgroup holding that subgroup's commands. */
  function LegacyGroupSpecOf(g: LegacyGroup): (r: Result<GroupSpec>)
    ensures r.Err? ==> r.error == TypeError
    ensures r.Ok? ==> r.value.name == g.name && r.value.params == []
    ensures r.Ok? ==> |r.value.members| == |g.commands| + |g.subgroups|
  {
    match (CommandMembers(g.commands), LegacySubgroupMembers(g.subgroups))
    case (Ok(cms), Ok(sms)) => Ok(GroupSpec(g.name, cms + sms, []))
    case (Err(e), _) => Err(e)
    case (_, Err(e)) => Err(e)
  }

  /** The click tree of an older-style group is at most two levels deep: every
      nested group holds commands only, so sub-subgroups never reach click. */
  lemma LegacyTreeIsShallow(g: LegacyGroup)
    requires LegacyGroupSpecOf(g).Ok?
    ensures forall m :: m in LegacyGroupSpecOf(g).value.members && m.GroupMember? ==>
      forall m' :: m' in m.group.members ==> m'.CommandMember?
  {
    var cms := CommandMembers(g.commands).value;
    var sms := LegacySubgroupMembers(g.subgroups).value;
    assert LegacyGroupSpecOf(g).value.members == cms + sms;
    LegacySubgroupMembersSpec(g.subgroups);
    CommandMembersSpec(g.commands);
    forall m: Member | m in cms + sms && m.GroupMember?
      ensures forall m' :: m' in m.group.members ==> m'.CommandMember?
    {
      assert m !in cms;
      var i :| 0 <= i < |sms| && sms[i] == m;
      var sub := g.subgroups[i].1;
      assert m.group == CommandsOnlySpec(sub.name, sub.commands).value;
    }
  }

  class ClickGroup {
    var name: Option<string>
    var help: Option<string>
    var commands: Dict<string, CommandModel>
    var subgroups: Dict<Option<string>, LegacyGroup>

    ghost predicate Valid()
      reads this
    {
      Dicts.Valid(commands) && Dicts.Valid(subgroups)
    }

    function Model(): LegacyGroup
      reads this
    {
      LegacyGroup(name, help, commands, subgroups)
    }

    /** `ClickGroup(group_name=..., group_help=...)`: both optional, no
        normalisation, empty registries. */
    constructor(groupName: Option<string>, groupHelp: Option<string>)
      ensures name == groupName && help == groupHelp
      ensures commands == [] && subgroups == []
      ensures Valid()
    {
      name := groupName;
      help := groupHelp;
      commands := [];
      subgroups := [];
    }

    /** `@group.command(metadata)` applied to `func`. */
    method Command(meta: LegacyCommandMetadata, func: Callback)
      requires Valid()
      modifies this
      ensures commands == Put(old(commands), meta.name, LegacyCommandFrom(meta, Some(func)))
      ensures name == old(name) && help == old(help) && subgroups == old(subgroups)
      ensures Valid()
    {
      PutValid(commands, meta.name, LegacyCommandFrom(meta, Some(func)));
      commands := Put(commands, meta.name, LegacyCommandFrom(meta, Some(func)));
    }

    /** Calling the decorated command: the command is registered again from the
        metadata alone, so it no longer has a function, and the decorated
        function itself is not called. */
    method Invoke(meta: LegacyCommandMetadata)
      requires Valid()
      modifies this
      ensures commands == Put(old(commands), meta.name, LegacyCommandFrom(meta, None))
      ensures Get(commands, meta.name).value.func.None?
      ensures name == old(name) && help == old(help) && subgroups == old(subgroups)
      ensures Valid()
    {
      PutValid(commands, meta.name, LegacyCommandFrom(meta, None));
      commands := Put(commands, meta.name, LegacyCommandFrom(meta, None));
    }

    /** `add_group`: only a name already present is refused; None and the empty
        string are names like any other. */
    method AddGroup(sub: LegacyGroup) returns (r: Result<Unit>)
      requires Valid()
      modifies this
      ensures r.Err? <==> sub.name in Keys(old(subgroups))
      ensures r.Err? ==> r.error == ValueError && subgroups == old(subgroups)
      ensures r.Ok? ==> subgroups == old(subgroups) + [(sub.name, sub)]
      ensures name == old(name) && help == old(help) && commands == old(commands)
      ensures Valid()
    {
      if sub.name in Keys(subgroups) {
        return Err(ValueError);
      }
      PutValid(subgroups, sub.name, sub);
      PutNew(subgroups, sub.name, sub);
      subgroups := Put(subgroups, sub.name, sub);
      r := Ok(Unit);
    }

    /** `click_group`: commands first, then each subgroup with its commands. */
    method ClickGroupSpec() returns (r: Result<GroupSpec>)
      ensures r == LegacyGroupSpecOf(Model())
    {
      var g := Model();
      var subs := g.subgroups;
      var cms := MapCommands(g.commands);
      if cms.Err? {
        return Err(TypeError);
      }
      var sms: seq<Member> := [];
      for i := 0 to |subs|
        invariant MapValues(subs, LegacyMemberOf, i) == Ok(sms)
      {
        var sub := ModelUtils.MapGroup(subs[i].1.name, subs[i].1.commands);
        if sub.Err? {
          LegacySubgroupMembersSpec(subs);
          assert LegacySubgroupMembers(subs).Err?;
          return Err(TypeError);
        }
        if subs[i].1.name.None? {
          LegacySubgroupMembersSpec(subs);
          assert LegacySubgroupMembers(subs).Err?;
          return Err(TypeError);
        }
        sms := sms + [GroupMember(sub.value)];
      }
      r := Ok(GroupSpec(g.name, cms.value + sms, []));
    }
  }

  /** The command names defined by a plugin's groups, group by group. */
  function CommandNames(groups: Dict<Option<string>, LegacyGroup>): (names: seq<string>)
    ensures forall c :: c in names <==> exists i :: 0 <= i < |groups| && c in Keys(groups[i].1.commands)
  {
    if groups == [] then []
    else
      var rest := CommandNames(groups[1..]);
      assert forall i :: 0 < i < |groups| ==> groups[i] == groups[1..][i - 1];
      Keys(groups[0].1.commands) + rest
  }

  /** `validate_commands` as written: it reads `self.commands`, which a plugin
      does not have, so it fails with AttributeError whatever the plugin holds. */
  function ValidateCommandsAsWritten(groups: Dict<Option<string>, LegacyGroup>): (r: Result<Unit>)
    ensures r == Err(AttributeError)
  {
    Err(AttributeError)
  }

  /** `validate_commands` as evidently intended: every required command, "deploy"
      and then "up", must be defined by one of the plugin's groups; the first
      missing one raises ValueError. */
  function ValidateCommands(groups: Dict<Option<string>, LegacyGroup>): (r: Result<Unit>)
    ensures r.Ok? <==>
      (exists i :: 0 <= i < |groups| && "deploy" in Keys(groups[i].1.commands)) &&
      (exists i :: 0 <= i < |groups| && "up" in Keys(groups[i].1.commands))
    ensures r.Err? ==> r.error == ValueError
  {
    var names := CommandNames(groups);
    if "deploy" !in names then Err(ValueError)
    else if "up" !in names then Err(ValueError)
    else Ok(Unit)
  }

  /** A plugin whose group defines both required commands passes the intended
      check but is still refused by the check as written. */
  lemma ValidateCommandsDiscrepancy()
    ensures var cmd := CommandModel("deploy", Some("Deploy the app"), [], [], [], None);
      var groups := [(Some("app"), LegacyGroup(Some("app"), None,
                      [("deploy", cmd), ("up", cmd.(name := "up"))], []))];
      ValidateCommands(groups).Ok? && ValidateCommandsAsWritten(groups).Err?
  {
    var cmd := CommandModel("deploy", Some("Deploy the app"), [], [], [], None);
    var group := LegacyGroup(Some("app"), None, [("deploy", cmd), ("up", cmd.(name := "up"))], []);
    var groups := [(Some("app"), group)];
    assert Keys(group.commands) == ["deploy", "up"];
    assert "deploy" in Keys(groups[0].1.commands);
    assert "up" in Keys(groups[0].1.commands);
  }

  /** The plugin base class of models.py. */
  class Plugin {
    const name: string
    var groups: Dict<Option<string>, LegacyGroup>

    constructor(pluginName: string, initialGroups: Dict<Option<string>, LegacyGroup>)
      requires Dicts.Valid(initialGroups)
      ensures name == pluginName && groups == initialGroups
    {
      name := pluginName;
      groups := initialGroups;
    }

    /** `add_group`: refuses a group whose name is already registered. */
    method AddGroup(g: LegacyGroup) returns (r: Result<Unit>)
      requires Dicts.Valid(groups)
      modifies this
      ensures r.Err? <==> g.name in Keys(old(groups))
      ensures r.Err? ==> r.error == ValueError && groups == old(groups)
      ensures r.Ok? ==> groups == old(groups) + [(g.name, g)]
      ensures Dicts.Valid(groups)
    {
      if g.name in Keys(groups) {
        return Err(ValueError);
      }
      PutValid(groups, g.name, g);
      PutNew(groups, g.name, g);
      groups := Put(groups, g.name, g);
      r := Ok(Unit);
    }

    /** `get_group`: the group registered under the name, or None. */
    method GetGroup(groupName: Option<string>) returns (r: Option<LegacyGroup>)
      ensures r.Some? <==> groupName in Keys(groups)
      ensures r.Some? ==> (groupName, r.value) in groups
      ensures r == Get(groups, groupName)
    {
      r := Get(groups, groupName);
      if r.Some? {
        GetStored(groups, groupName);
      }
    }
  }

  /** `ApplicationPlugin(name=..., groups=...)` with the intended command check:
      the plugin is created only if its groups define "deploy" and "up". */
  method NewApplicationPlugin(pluginName: string, initialGroups: Dict<Option<string>, LegacyGroup>)
    returns (r: Result<Plugin>)
    requires Dicts.Valid(initialGroups)
    ensures r.Ok? <==> ValidateCommands(initialGroups).Ok?
    ensures r.Err? ==> r.error == ValueError
    ensures r.Ok? ==> fresh(r.value) && r.value.name == pluginName && r.value.groups == initialGroups
  {
    var plugin := new Plugin(pluginName, initialGroups);
    var check := ValidateCommands(plugin.groups);
    if check.Err? {
      return Err(check.error);
    }
    r := Ok(plugin);
  }
}
