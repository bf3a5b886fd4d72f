/**
 * The parameter models of a CLI command: a bare parameter and its three kinds
 * (positional argument, option, boolean flag), with their field defaults.
 */
module ClickParams {
  import opened Wrappers

  /** The enumeration of parameter types; each member stands for its string value. */
  datatype ParameterType = String | Int | Float | Bool

  function TypeName(t: ParameterType): string {
    match t
    case String => "string"
    case Int => "int"
    case Float => "float"
    case Bool => "bool"
  }

  /** A parameter default. One model types it as an optional bool, the older one
      as an optional string; a flag's default is a bool. */
  datatype DefaultValue = NoDefault | BoolDefault(b: bool) | StrDefault(s: string)

  /** Which class a parameter model is an instance of. A `PlainParam` is the base
      class itself, which the mapping to click rejects. */
  datatype ParamKind =
    | PlainParam
    | ArgumentParam
    | OptionParam(shortcut: Option<string>)
    | FlagParam

  datatype ClickParam = ClickParam(
    kind: ParamKind,
    name: string,
    ptype: ParameterType,
    default: DefaultValue,
    required: bool,
    help: Option<string>)

  /** `ClickParam(name=...)` with every other field at its default. */
  function NewParam(name: string): ClickParam {
    ClickParam(PlainParam, name, String, NoDefault, false, None)
  }

  /** `ClickArgument(name=...)`. */
  function NewArgument(name: string): ClickParam {
    NewParam(name).(kind := ArgumentParam)
  }

  /** `ClickOption(name=...)`. */
  function NewOption(name: string): ClickParam {
    NewParam(name).(kind := OptionParam(None))
  }

  /** `ClickFlag(name=...)`. */
  function NewFlag(name: string): ClickParam {
    NewParam(name).(kind := FlagParam, ptype := Bool, default := BoolDefault(false))
  }

  /** The base defaults, and how each subclass departs from them: an argument adds
      nothing, an option adds only an absent shortcut, a flag is bool-typed and
      defaults to False. */
  lemma FieldDefaults(name: string)
    ensures var p := NewParam(name);
      p.ptype == String && p.default == NoDefault && !p.required && p.help == None
    ensures NewArgument(name) == NewParam(name).(kind := ArgumentParam)
    ensures NewOption(name).kind.shortcut == None
    ensures NewOption(name).(kind := PlainParam) == NewParam(name)
    ensures var f := NewFlag(name);
      f.ptype == Bool && f.default == BoolDefault(false) && !f.required && f.help == None
  {
  }
}
