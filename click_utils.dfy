/**
 * The mapping from command and group models to click objects, and the lazy
 * context decorator. Click's own objects are abstract values recording what
 * they are built from: a parameter's names, type and settings, a command's
 * parameter list and callback, and a group's members in the order they were
 * added.
 */
module ClickUtils {
  import opened Wrappers
  import opened Dicts
  import opened ClickParams
  import opened ClickCommands

  /** A click `Argument` or `Option`. A flag is an option with `isFlag` set. */
  datatype ParamSpec =
    | ArgumentSpec(names: seq<string>, ptype: PyType, required: bool)
    | OptionSpec(names: seq<string>, ptype: PyType, default: DefaultValue,
                 help: Option<string>, required: bool, isFlag: bool)

  /** A click `Command`. Its help is optional in click; a mapped command
      always passes its `command_help`, a group its help when it has one. */
  datatype CommandSpec = CommandSpec(
    name: string,
    params: seq<ParamSpec>,
    callback: Option<Callback>,
    help: Option<string>)

  /** What `Group.add_command` was given: a command or a nested group. */
  datatype Member = CommandMember(command: CommandSpec) | GroupMember(group: GroupSpec)

  /** A click `Group`: its name, its members in the order they were added, and
      its own parameters. */
  datatype GroupSpec = GroupSpec(name: Option<string>, members: seq<Member>, params: seq<ParamSpec>)

  /** Only arguments, options and flags can be mapped; a bare `ClickParam` cannot. */
  predicate Supported(p: ClickParam) {
    !p.kind.PlainParam?
  }

  /** The click option built for an option model: its name, then its shortcut
      if it has one; type, default, help and required are carried over. */
  function OptionSpecOf(p: ClickParam): (s: ParamSpec)
    requires p.kind.OptionParam?
    ensures s.OptionSpec? && !s.isFlag
    ensures s.names == if p.kind.shortcut.Some? then [p.name, p.kind.shortcut.value] else [p.name]
    ensures s.ptype == MappedType(p.ptype) && s.default == p.default
    ensures s.help == p.help && s.required == p.required
  {
    var opts := [p.name] + (if p.kind.shortcut.Some? then [p.kind.shortcut.value] else []);
    OptionSpec(opts, MappedType(p.ptype), p.default, p.help, p.required, false)
  }

  /** The click parameter for one parameter model, or None for a bare
      `ClickParam`. An argument keeps only its name, type and required; a flag
      is a bool-typed, never-required option whatever its model says. */
  function ParamSpecOf(p: ClickParam): (r: Option<ParamSpec>)
    ensures r.Some? <==> Supported(p)
    ensures r.Some? ==> |r.value.names| >= 1 && r.value.names[0] == p.name
    ensures r.Some? ==> (r.value.ArgumentSpec? <==> p.kind.ArgumentParam?)
    ensures r.Some? && r.value.OptionSpec? ==> (r.value.isFlag <==> p.kind.FlagParam?)
    ensures p.kind.FlagParam? ==>
      r == Some(OptionSpec([p.name], BoolType, p.default, p.help, false, true))
    ensures p.kind.ArgumentParam? ==>
      r == Some(ArgumentSpec([p.name], MappedType(p.ptype), p.required))
  {
    match p.kind
    case PlainParam => None
    case ArgumentParam => Some(ArgumentSpec([p.name], MappedType(p.ptype), p.required))
    case OptionParam(_) => Some(OptionSpecOf(p))
    case FlagParam => Some(OptionSpec([p.name], BoolType, p.default, p.help, false, true))
  }

  /** `add_parameter(params, p)`: appends the click parameter for `p` to the
      list, or raises TypeError for an unsupported model and leaves it alone. */
  function AddParameter(params: seq<ParamSpec>, p: ClickParam): (r: Result<seq<ParamSpec>>)
    ensures r.Err? <==> !Supported(p)
    ensures r.Err? ==> r.error == TypeError
    ensures r.Ok? ==> |r.value| == |params| + 1 && r.value[..|params|] == params
    ensures r.Ok? ==> Some(r.value[|params|]) == ParamSpecOf(p)
  {
    match ParamSpecOf(p)
    case None => Err(TypeError)
    case Some(s) => Ok(params + [s])
  }

  /** `add_parameter` applied to each model in turn, starting from an empty list:
      it succeeds exactly when every model is supported, and then yields one click
      parameter per model, position by position. */
  function ParamSpecs(ps: seq<ClickParam>): (r: Result<seq<ParamSpec>>)
    ensures r.Ok? <==> forall i :: 0 <= i < |ps| ==> Supported(ps[i])
    ensures r.Err? ==> r.error == TypeError
    ensures r.Ok? ==> |r.value| == |ps|
    ensures r.Ok? ==> forall i :: 0 <= i < |ps| ==> Some(r.value[i]) == ParamSpecOf(ps[i])
  {
    if ps == [] then Ok([])
    else
      match ParamSpecs(ps[..|ps| - 1])
      case Err(e) => Err(e)
      case Ok(prefix) => AddParameter(prefix, ps[|ps| - 1])
  }

  /** All parameter models of a command, in the order they are mapped. */
  function AllParams(c: CommandModel): seq<ClickParam> {
    c.arguments + c.options + c.flags
  }

  /** The click command for a command model: its arguments, then its options,
      then its flags, with the model's name, help and function. */
  function CommandSpecOf(c: CommandModel): (r: Result<CommandSpec>)
    ensures r.Ok? <==> forall i :: 0 <= i < |AllParams(c)| ==> Supported(AllParams(c)[i])
    ensures r.Err? ==> r.error == TypeError
    ensures r.Ok? ==> r.value.name == c.name && r.value.help == c.help && r.value.callback == c.func
    ensures r.Ok? ==> |r.value.params| == |c.arguments| + |c.options| + |c.flags|
  {
    match ParamSpecs(AllParams(c))
    case Err(e) => Err(e)
    case Ok(params) => Ok(CommandSpec(c.name, params, c.func, c.help))
  }

  /** The click parameters of a command come in three blocks: one per argument,
      then one per option, then one per flag, each in model order. */
  lemma CommandParamsOrdered(c: CommandModel)
    requires CommandSpecOf(c).Ok?
    ensures var ps := CommandSpecOf(c).value.params;
      (forall i :: 0 <= i < |c.arguments| ==> Some(ps[i]) == ParamSpecOf(c.arguments[i])) &&
      (forall i :: 0 <= i < |c.options| ==>
        Some(ps[|c.arguments| + i]) == ParamSpecOf(c.options[i])) &&
      (forall i :: 0 <= i < |c.flags| ==>
        Some(ps[|c.arguments| + |c.options| + i]) == ParamSpecOf(c.flags[i]))
  {
    var all := AllParams(c);
    var ps := CommandSpecOf(c).value.params;
    assert ps == ParamSpecs(all).value;
    forall i | 0 <= i < |c.arguments| ensures Some(ps[i]) == ParamSpecOf(c.arguments[i]) {
      assert all[i] == c.arguments[i];
    }
    forall i | 0 <= i < |c.options|
      ensures Some(ps[|c.arguments| + i]) == ParamSpecOf(c.options[i])
    {
      assert all[|c.arguments| + i] == c.options[i];
    }
    forall i | 0 <= i < |c.flags|
      ensures Some(ps[|c.arguments| + |c.options| + i]) == ParamSpecOf(c.flags[i])
    {
      assert all[|c.arguments| + |c.options| + i] == c.flags[i];
    }
  }

  /** `map_pyd_opt_to_click_option`. */
  method MapOption(option: ClickParam) returns (s: ParamSpec)
    requires option.kind.OptionParam?
    ensures Some(s) == ParamSpecOf(option)
    ensures s.OptionSpec? && !s.isFlag && s.names[0] == option.name
  {
    var opts := [option.name];
    if option.kind.shortcut.Some? {
      opts := opts + [option.kind.shortcut.value];
    }
    s := OptionSpec(opts, MappedType(option.ptype), option.default, option.help, option.required, false);
  }

  /** `map_pyd_cmd_to_click_command`: maps the parameter models one by one; the
      first unsupported one raises TypeError. */
  method MapCommand(c: CommandModel) returns (r: Result<CommandSpec>)
    ensures r == CommandSpecOf(c)
  {
    var all := AllParams(c);
    var params: seq<ParamSpec> := [];
    for i := 0 to |all|
      invariant ParamSpecs(all[..i]) == Ok(params)
    {
      ParamSpecsSnoc(all, i);
      var step := AddParameter(params, all[i]);
      if step.Err? {
        ParamSpecsErr(all, i);
        return Err(TypeError);
      }
      params := step.value;
    }
    assert all[..|all|] == all;
    r := Ok(CommandSpec(c.name, params, c.func, c.help));
  }

  /** One more model after a mapped prefix is added with `add_parameter`. */
  lemma ParamSpecsSnoc(ps: seq<ClickParam>, i: nat)
    requires i < |ps| && ParamSpecs(ps[..i]).Ok?
    ensures ParamSpecs(ps[..i + 1]) == AddParameter(ParamSpecs(ps[..i]).value, ps[i])
  {
    assert ps[..i + 1][..i] == ps[..i];
  }

  /** An unsupported model makes the whole list fail. */
  lemma ParamSpecsErr(ps: seq<ClickParam>, i: nat)
    requires i < |ps| && !Supported(ps[i])
    ensures ParamSpecs(ps).Err?
  {
  }

  /** The member a stored command model becomes. */
  function CommandMemberOf(c: CommandModel): Result<Member> {
    match CommandSpecOf(c)
    case Err(e) => Err(e)
    case Ok(spec) => Ok(CommandMember(spec))
  }

  /** The members for a group's commands: one command per stored model, in
      insertion order. */
  function CommandMembers(cs: Dict<string, CommandModel>): (r: Result<seq<Member>>)
    ensures r.Err? ==> r.error == TypeError
    ensures r.Ok? ==> |r.value| == |cs|
  {
    MapValues(cs, CommandMemberOf, |cs|)
  }

  /** The command members exist iff every command maps, and then the i-th
      member is the i-th command mapped. */
  lemma CommandMembersSpec(cs: Dict<string, CommandModel>)
    ensures CommandMembers(cs).Ok? <==> forall i :: 0 <= i < |cs| ==> CommandSpecOf(cs[i].1).Ok?
    ensures CommandMembers(cs).Ok? ==> forall i :: 0 <= i < |cs| ==>
      CommandMembers(cs).value[i] == CommandMember(CommandSpecOf(cs[i].1).value)
  {
    MapValuesSpec(cs, CommandMemberOf, |cs|);
  }

  /** `map_pyd_grp_to_click_group`: a group named like the model, holding its
      commands and then, recursively, its subgroups. Subgroup options are not
      carried over. */
  function GroupSpecOf(g: GroupModel): (r: Result<GroupSpec>)
    ensures r.Err? ==> r.error == TypeError
    ensures r.Ok? ==> r.value.name == g.name && r.value.params == []
    ensures r.Ok? ==> |r.value.members| == |g.commands| + |g.subgroups|
    decreases g, 1
  {
    match (CommandMembers(g.commands), SubgroupMembers(g, |g.subgroups|))
    case (Ok(cms), Ok(sms)) => Ok(GroupSpec(g.name, cms + sms, []))
    case (Err(e), _) => Err(e)
    case (_, Err(e)) => Err(e)
  }

  /** The members for the first `n` subgroups of `g`. */
  function SubgroupMembers(g: GroupModel, n: nat): (r: Result<seq<Member>>)
    requires n <= |g.subgroups|
    ensures r.Err? ==> r.error == TypeError
    ensures r.Ok? ==> |r.value| == n
    decreases g, 0, n
  {
    if n == 0 then Ok([])
    else
      assert g.subgroups[n - 1] in g.subgroups;
      match SubgroupMembers(g, n - 1)
      case Err(e) => Err(e)
      case Ok(prefix) =>
        match GroupSpecOf(g.subgroups[n - 1].1)
        case Err(e) => Err(e)
        case Ok(spec) => Ok(prefix + [GroupMember(spec)])
  }

  /** When the subgroup members exist, every subgroup maps and the i-th member
      is the i-th subgroup mapped. */
  lemma {:induction false} SubgroupMembersSpec(g: GroupModel, n: nat)
    requires n <= |g.subgroups|
    ensures SubgroupMembers(g, n).Ok? ==> forall i :: 0 <= i < n ==>
      GroupSpecOf(g.subgroups[i].1).Ok? &&
      SubgroupMembers(g, n).value[i] == GroupMember(GroupSpecOf(g.subgroups[i].1).value)
  {
    if n > 0 {
      SubgroupMembersSpec(g, n - 1);
      var r := SubgroupMembers(g, n);
      var p := SubgroupMembers(g, n - 1);
      var last := GroupSpecOf(g.subgroups[n - 1].1);
      if r.Ok? {
        assert p.Ok? && last.Ok?;
        assert r.value == p.value + [GroupMember(last.value)];
        forall i | 0 <= i < n
          ensures GroupSpecOf(g.subgroups[i].1).Ok?
          ensures r.value[i] == GroupMember(GroupSpecOf(g.subgroups[i].1).value)
        {
          if i < n - 1 {
            assert r.value[i] == p.value[i];
          }
        }
      }
    }
  }

  /** When every subgroup maps, so do the subgroup members. */
  lemma {:induction false} SubgroupMembersAllMap(g: GroupModel, n: nat)
    requires n <= |g.subgroups|
    requires forall i :: 0 <= i < n ==> GroupSpecOf(g.subgroups[i].1).Ok?
    ensures SubgroupMembers(g, n).Ok?
  {
    if n > 0 {
      SubgroupMembersAllMap(g, n - 1);
      assert GroupSpecOf(g.subgroups[n - 1].1).Ok?;
    }
  }

  /** The members of a mapped group: its commands first, in insertion order, then
      its subgroups, each mapped in the same way. */
  lemma GroupMembersOrdered(g: GroupModel)
    requires GroupSpecOf(g).Ok?
    ensures var ms := GroupSpecOf(g).value.members;
      (forall i :: 0 <= i < |g.commands| ==>
        CommandSpecOf(g.commands[i].1).Ok? &&
        ms[i] == CommandMember(CommandSpecOf(g.commands[i].1).value)) &&
      (forall i :: 0 <= i < |g.subgroups| ==>
        GroupSpecOf(g.subgroups[i].1).Ok? &&
        ms[|g.commands| + i] == GroupMember(GroupSpecOf(g.subgroups[i].1).value))
  {
    var cms := CommandMembers(g.commands).value;
    var sms := SubgroupMembers(g, |g.subgroups|).value;
    SubgroupMembersSpec(g, |g.subgroups|);
    CommandMembersSpec(g.commands);
    assert GroupSpecOf(g).value.members == cms + sms;
  }

  /** The loop over a group's stored commands, adding each mapped command. */
  method MapCommands(cs: Dict<string, CommandModel>) returns (r: Result<seq<Member>>)
    ensures r == CommandMembers(cs)
  {
    var members: seq<Member> := [];
    for i := 0 to |cs|
      invariant MapValues(cs, CommandMemberOf, i) == Ok(members)
    {
      var cmd := MapCommand(cs[i].1);
      if cmd.Err? {
        CommandMembersSpec(cs);
        assert !CommandSpecOf(cs[i].1).Ok?;
        return Err(TypeError);
      }
      members := members + [CommandMember(cmd.value)];
    }
    r := Ok(members);
  }

  /** The loop over a group's subgroups, adding each mapped subgroup. */
  method MapSubgroups(g: GroupModel) returns (r: Result<seq<Member>>)
    ensures r == SubgroupMembers(g, |g.subgroups|)
    decreases g, 0
  {
    var members: seq<Member> := [];
    for i := 0 to |g.subgroups|
      invariant SubgroupMembers(g, i) == Ok(members)
    {
      assert g.subgroups[i] in g.subgroups;
      var sub := MapGroup(g.subgroups[i].1);
      SubgroupMembersStep(g, i);
      if sub.Err? {
        SubgroupMembersErr(g, i + 1);
        return Err(TypeError);
      }
      members := members + [GroupMember(sub.value)];
    }
    r := Ok(members);
  }

  /** One more subgroup after a successful prefix. */
  lemma SubgroupMembersStep(g: GroupModel, i: nat)
    requires i < |g.subgroups| && SubgroupMembers(g, i).Ok?
    ensures var sub := GroupSpecOf(g.subgroups[i].1);
      SubgroupMembers(g, i + 1) ==
        if sub.Ok? then Ok(SubgroupMembers(g, i).value + [GroupMember(sub.value)]) else Err(TypeError)
  {
  }

  /** A failure among the first subgroups makes the whole loop fail. */
  lemma {:induction false} SubgroupMembersErr(g: GroupModel, n: nat)
    requires n <= |g.subgroups| && SubgroupMembers(g, n).Err?
    ensures SubgroupMembers(g, |g.subgroups|) == Err(TypeError)
    decreases |g.subgroups| - n
  {
    if n < |g.subgroups| {
      assert SubgroupMembers(g, n + 1).Err?;
      SubgroupMembersErr(g, n + 1);
    }
  }

  /** `map_pyd_grp_to_click_group`: a TypeError from any command, at any depth,
      propagates. */
  method MapGroup(g: GroupModel) returns (r: Result<GroupSpec>)
    ensures r == GroupSpecOf(g)
    decreases g, 1
  {
    var cms := MapCommands(g.commands);
    if cms.Err? {
      return Err(TypeError);
    }
    var sms := MapSubgroups(g);
    if sms.Err? {
      return Err(TypeError);
    }
    r := Ok(GroupSpec(g.name, cms.value + sms.value, []));
  }

  /** `LazyPassDecorator`: the keyword arguments the decorated function was
      called with take precedence; the decorator's own keyword arguments fill in
      only the names the call left out. */
  function DecoratorKwargs<V>(decoratorKwargs: Dict<string, V>, callKwargs: Dict<string, V>): (r: Dict<string, V>)
    ensures forall k :: Get(r, k) == if k in Keys(callKwargs) then None else Get(decoratorKwargs, k)
    ensures Valid(decoratorKwargs) ==> Valid(r)
  {
    FilterKeys(decoratorKwargs, k => k !in Keys(callKwargs))
  }

  /** What the decorated function receives: the instance built from the
      decorator's positional arguments and the remaining keyword arguments, then
      the call's own arguments unchanged. */
  datatype LazyCall<V> = LazyCall(
    instanceArgs: seq<V>,
    instanceKwargs: Dict<string, V>,
    callArgs: seq<V>,
    callKwargs: Dict<string, V>)

  function LazyPass<V>(decoratorArgs: seq<V>, decoratorKwargs: Dict<string, V>,
                       callArgs: seq<V>, callKwargs: Dict<string, V>): (r: LazyCall<V>)
    ensures r.instanceArgs == decoratorArgs && r.callArgs == callArgs && r.callKwargs == callKwargs
    ensures forall k :: k in Keys(r.instanceKwargs) ==> k !in Keys(callKwargs)
    ensures forall k :: k in Keys(r.instanceKwargs) <==> k in Keys(decoratorKwargs) && k !in Keys(callKwargs)
    ensures forall k :: Get(r.instanceKwargs, k) == if k in Keys(callKwargs) then None else Get(decoratorKwargs, k)
    ensures r.instanceKwargs == DecoratorKwargs(decoratorKwargs, callKwargs)
  {
    LazyCall(decoratorArgs, DecoratorKwargs(decoratorKwargs, callKwargs), callArgs, callKwargs)
  }
}
