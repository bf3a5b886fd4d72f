/**
 * The second mapping module (utils.py): the same parameter and command mapping
 * as click_utils.py, but a group is mapped with its commands only.
 */
module ModelUtils {
  import opened Wrappers
  import opened Dicts
  import opened ClickCommands
  import opened ClickUtils

  /** The click group holding a group's commands and nothing else. */
  function CommandsOnlySpec(name: Option<string>, commands: Dict<string, CommandModel>): (r: Result<GroupSpec>)
    ensures r.Ok? <==> forall i :: 0 <= i < |commands| ==> CommandSpecOf(commands[i].1).Ok?
    ensures r.Err? ==> r.error == TypeError
    ensures r.Ok? ==> r.value.name == name && r.value.params == [] && |r.value.members| == |commands|
    ensures r.Ok? ==> forall i :: 0 <= i < |r.value.members| ==> r.value.members[i].CommandMember?
  {
    CommandMembersSpec(commands);
    match CommandMembers(commands)
    case Err(e) => Err(e)
    case Ok(ms) => Ok(GroupSpec(name, ms, []))
  }

  /** `map_pyd_grp_to_click_group` of utils.py, which reads only the group's
      name and commands. */
  method MapGroup(name: Option<string>, commands: Dict<string, CommandModel>) returns (r: Result<GroupSpec>)
    ensures r == CommandsOnlySpec(name, commands)
  {
    var cms := MapCommands(commands);
    if cms.Err? {
      return Err(TypeError);
    }
    r := Ok(GroupSpec(name, cms.value, []));
  }

  /** Mapping with commands only gives the commands-part of the full mapping:
      the same first members, and the subgroups are simply missing. A group
      without subgroups maps the same way under both. */
  lemma CommandsOnlyIsPrefix(g: GroupModel)
    requires GroupSpecOf(g).Ok?
    ensures CommandsOnlySpec(g.name, g.commands).Ok?
    ensures CommandsOnlySpec(g.name, g.commands).value.members ==
            GroupSpecOf(g).value.members[..|g.commands|]
    ensures g.subgroups == [] ==> CommandsOnlySpec(g.name, g.commands) == GroupSpecOf(g)
  {
    var cms := CommandMembers(g.commands).value;
    var sms := SubgroupMembers(g, |g.subgroups|).value;
    assert GroupSpecOf(g).value.members == cms + sms;
    assert (cms + sms)[..|cms|] == cms;
    if g.subgroups == [] {
      assert sms == [];
      assert cms + sms == cms;
    }
  }
}
