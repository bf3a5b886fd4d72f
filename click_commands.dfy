/**
 * Command and group models of the CLI: the mapping from parameter types to
 * Python types, the name and help validators, and the command/group records.
 * The validators are plain functions here because in the source their
 * field-validator decorators are commented out: constructing a model never
 * runs them.
 */
module ClickCommands {
  import opened Wrappers
  import opened Text
  import opened Dicts
  import opened ClickParams

  /** The Python type objects that `TYPE_MAPPING` yields. */
  datatype PyType = StrType | IntType | FloatType | BoolType

  const TypeMapping: map<string, PyType> :=
    map["int" := IntType, "float" := FloatType, "bool" := BoolType, "string" := StrType]

  /** `TYPE_MAPPING[t]` for a parameter type `t`. */
  function MappedType(t: ParameterType): PyType {
    TypeMapping[TypeName(t)]
  }

  /** The mapping has exactly the four type names as keys, so a lookup by a
      parameter type never fails, and different parameter types map to different
      Python types. */
  lemma TypeMappingTotal()
    ensures TypeMapping.Keys == {TypeName(String), TypeName(Int), TypeName(Float), TypeName(Bool)}
    ensures forall t :: TypeName(t) in TypeMapping
    ensures forall t1, t2 :: MappedType(t1) == MappedType(t2) ==> t1 == t2
  {
  }

  /** `validate_command_name`: a non-empty, lower-case, alphanumeric name of at
      most 20 characters. Accepted names are exactly the strings of at most 20
      characters drawn from [a-z0-9] that hold at least one letter. */
  function ValidateCommandName(v: string): (r: Result<string>)
    ensures r.Ok? ==> r.value == v
    ensures r.Err? ==> r.error == ValueError
    ensures r.Ok? <==>
      |v| <= 20 &&
      (forall i :: 0 <= i < |v| ==> IsLowerChar(v[i]) || IsDigitChar(v[i])) &&
      (exists i :: 0 <= i < |v| && IsLowerChar(v[i]))
  {
    if v == "" || !IsLower(v) || !IsAlnum(v) || |v| > 20 then Err(ValueError) else Ok(v)
  }

  /** `validate_command_help`: a sentence of 1 to 100 characters that begins with
      an upper-case letter and does not end in a period. */
  function ValidateCommandHelp(v: string): (r: Result<string>)
    ensures r.Ok? ==> r.value == v
    ensures r.Err? ==> r.error == ValueError
    ensures r.Ok? <==> 1 <= |v| <= 100 && IsUpperChar(v[0]) && v[|v| - 1] != '.'
  {
    if v == "" || |v| > 100 then Err(ValueError)
    else if !IsUpperChar(v[0]) || v[|v| - 1] == '.' then Err(ValueError)
    else Ok(v)
  }

  /** `validate_group_name`: None passes; the empty string is refused; any other
      name passes exactly when it would pass as a command name. */
  function ValidateGroupName(v: Option<string>): (r: Result<Option<string>>)
    ensures r.Ok? ==> r.value == v
    ensures r.Err? ==> r.error == ValueError
    ensures v == Some("") ==> r.Err?
    ensures v.None? ==> r.Ok?
    ensures v.Some? ==> (r.Ok? <==> ValidateCommandName(v.value).Ok?)
  {
    if v.None? then Ok(v)
    else if v.value == "" then Err(ValueError)
    else if !IsLower(v.value) then Err(ValueError)
    else if !IsAlnum(v.value) then Err(ValueError)
    else if |v.value| > 20 then Err(ValueError)
    else Ok(v)
  }

  /** `validate_group_help`: checks the length before emptiness, but accepts
      exactly the texts the command help validator accepts. */
  function ValidateGroupHelp(v: string): (r: Result<string>)
    ensures r.Ok? ==> r.value == v
    ensures r.Err? ==> r.error == ValueError
    ensures r.Ok? <==> ValidateCommandHelp(v).Ok?
  {
    if |v| > 100 then Err(ValueError)
    else if v == "" then Err(ValueError)
    else if !IsUpperChar(v[0]) || v[|v| - 1] == '.' then Err(ValueError)
    else Ok(v)
  }

  /** The cases of the model tests: the valid command and group are accepted,
      and each invalid name or help is refused by its validator. */
  lemma ValidatorTestCases()
    ensures ValidateCommandName("test").Ok? && ValidateCommandHelp("Test command").Ok?
    ensures ValidateGroupName(Some("test")).Ok? && ValidateGroupHelp("Test group").Ok?
    ensures ValidateCommandName("").Err?
    ensures ValidateCommandName("space in name").Err?
    ensures ValidateCommandName("Capital").Err?
    ensures ValidateCommandName("verylongcommandthatisgreaterthan20chars").Err?
    ensures ValidateCommandHelp("").Err?
    ensures var long := "A very long command help that happens to be longer than 100 characters";
      ValidateCommandHelp(long + ". " + long).Err?
    ensures ValidateGroupName(Some("")).Err?
    ensures ValidateGroupName(Some("space in name")).Err?
    ensures ValidateGroupName(Some("Capital")).Err?
    ensures ValidateGroupName(Some("verylonggroupthatisgreaterthan20chars")).Err?
    ensures ValidateGroupHelp("").Err?
    ensures var long := "A very long group help that happens to be longer than 100 characters";
      ValidateGroupHelp(long + ". " + long).Err?
  {
    assert "test"[0] == 't';
    assert "space in name"[5] == ' ' && !IsAlnumChar(' ');
    assert "Capital"[0] == 'C';
  }

  /** An opaque handle on the Python function a command runs. */
  type Callback = nat

  /** A `ClickCommandMetadata` instance: `command_name` and `command_help`
      are both required strings. Subclasses declare default parameter lists
      next to the name and help; these travel with the metadata. */
  datatype CommandMetadata = CommandMetadata(
    name: string,
    help: string,
    arguments: seq<ClickParam>,
    options: seq<ClickParam>,
    flags: seq<ClickParam>)

  /** A `ClickCommand` instance. Its help is optional so that the older
      models, whose metadata may leave it out, share the record. */
  datatype CommandModel = CommandModel(
    name: string,
    help: Option<string>,
    arguments: seq<ClickParam>,
    options: seq<ClickParam>,
    flags: seq<ClickParam>,
    func: Option<Callback>)

  /** `ClickCommand(**metadata.dict())` with its function set to `f`: every field
      of the metadata is kept. */
  function CommandFrom(meta: CommandMetadata, f: Option<Callback>): (c: CommandModel)
    ensures c.name == meta.name && c.help == Some(meta.help) && c.func == f
    ensures c.arguments == meta.arguments && c.options == meta.options && c.flags == meta.flags
  {
    CommandModel(meta.name, Some(meta.help), meta.arguments, meta.options, meta.flags, f)
  }

  /** A `ClickGroup` value, as it is stored inside a parent group. */
  datatype GroupModel = GroupModel(
    name: Option<string>,
    help: Option<string>,
    commands: Dict<string, CommandModel>,
    subgroups: Dict<string, GroupModel>,
    options: seq<ClickParam>)
}
