/** The operations of the command language, and which of them an instruction can denote. */
module MclSyntax {
  import opened Wrappers
  import opened Text
  import opened Json
  import opened Strings
  import Decimal

  datatype Selection = All | Index(index: int) | Range(start: int, end: int)

  datatype Selector = Selector(block: string, field: string, range: Selection)

  datatype MessageSource = PromptAlias(alias: string) | Selected(selector: Selector)

  type MessageExpression = seq<MessageSource>

  datatype ImportKind = MessageKind | ToolKind | SandboxKind

  datatype ConfigOperation = ConfigGet | ConfigSet(path: string, value: Json) | ConfigDelete(path: string)

  datatype Parameter = Expression(sources: MessageExpression) | Manual(argument: nat) | Empty

  datatype Operation =
    | Import(kind: ImportKind, locator: string, alias: string)
    | Create(name: string, fields: seq<string>, temporary: bool)
    | Get(sources: MessageExpression)
    | Inject(source: Parameter, target: Selector)
    | Config(config: ConfigOperation)
    | Effect(effect: string, parameters: seq<Parameter>)

  datatype Instruction = Instruction(text: string, arguments: seq<Json>)

  datatype ParseError = ParseFailed | ConfigPathInvalid | ConfigTypeMismatch | ArgumentMismatch

  // ---------------------------------------------------------------- well-formed operations

  /** `validate_identifier` */
  predicate Identifier(name: string) {
    && name != ""
    && (IsAsciiAlphabetic(name[0]) || name[0] == '_')
    && forall k :: 0 < k < |name| ==> IsAsciiAlphanumeric(name[k]) || name[k] == '_' || name[k] == '-'
  }

  predicate IsI64(i: int) {
    Decimal.I64_MIN <= i <= Decimal.I64_MAX
  }

  /** Range endpoints are ordered and share their sign. */
  predicate ValidSelection(range: Selection) {
    match range
    case All => true
    case Index(i) => IsI64(i)
    case Range(start, end) => IsI64(start) && IsI64(end) && start < end && (start < 0 <==> end < 0)
  }

  predicate ValidSelector(selector: Selector) {
    Identifier(selector.block) && Identifier(selector.field) && ValidSelection(selector.range)
  }

  predicate ValidSource(source: MessageSource) {
    match source
    case PromptAlias(alias) => Identifier(alias)
    case Selected(selector) => ValidSelector(selector)
  }

  predicate ValidExpression(sources: MessageExpression) {
    sources != [] && forall k :: 0 <= k < |sources| ==> ValidSource(sources[k])
  }

  predicate InvalidPart(part: string) {
    part == "" || exists k :: 0 <= k < |part| && (IsControl(part[k]) || part[k] == '[' || part[k] == ']')
  }

  predicate ValidPath(path: string) {
    var parts := SplitAll(path, '.');
    forall k :: 0 <= k < |parts| ==> !InvalidPart(parts[k])
  }

  /** How many parameters an effect takes; none for an unknown one. */
  function Arity(effect: string): Option<nat> {
    if effect == "inference" || effect == "tool_call" || effect == "sandbox_use" ||
        effect == "history_append" then Some(1)
    else if effect == "start_turn" || effect == "finish_turn" || effect == "ready" || effect == "wake" then Some(0)
    else None
  }

  predicate Distinct(names: seq<string>) {
    forall j, k :: 0 <= j < k < |names| ==> names[j] != names[k]
  }

  predicate ValidLocator(locator: string) {
    locator != "" && Whole(locator) && ';' !in locator
  }

  /** Whether the `?` parameters among these take the arguments `next`, `next + 1`, and so on. */
  predicate InOrder(parameters: seq<Parameter>, next: nat) {
    if parameters == [] then true
    else if parameters[0].Manual? then parameters[0].argument == next && InOrder(parameters[1..], next + 1)
    else InOrder(parameters[1..], next)
  }

  predicate WellFormed(operation: Operation, representable: Json -> bool) {
    match operation
    case Import(_, locator, alias) => ValidLocator(locator) && Identifier(alias)
    case Create(name, fields, _) =>
      Identifier(name) && fields != [] && Distinct(fields) && forall k :: 0 <= k < |fields| ==> Identifier(fields[k])
    case Get(sources) => ValidExpression(sources)
    case Inject(source, target) =>
      && (source.Expression? ==> ValidExpression(source.sources))
      && (source.Manual? ==> source.argument == 0)
      && ValidSelector(target)
    case Config(ConfigGet) => true
    case Config(ConfigSet(path, value)) => ValidPath(path) && representable(value)
    case Config(ConfigDelete(path)) => ValidPath(path)
    case Effect(effect, parameters) =>
      && Arity(effect) == Some(|parameters|)
      && (forall k :: 0 <= k < |parameters| ==> !parameters[k].Empty?)
      && (forall k :: 0 <= k < |parameters| && parameters[k].Expression? ==> ValidExpression(parameters[k].sources))
      && InOrder(parameters, 0)
  }

  /** The arguments that the parameters of an operation take, in the order of the text. */
  function Manuals(parameters: seq<Parameter>): seq<nat> {
    if parameters == [] then []
    else (if parameters[0].Manual? then [parameters[0].argument] else []) + Manuals(parameters[1..])
  }

  function ArgumentsUsed(operation: Operation): seq<nat> {
    match operation
    case Inject(source, _) => Manuals([source])
    case Config(ConfigSet(_, _)) => [0, 1]
    case Config(ConfigDelete(_)) => [0]
    case Effect(_, parameters) => Manuals(parameters)
    case _ => []
  }
}
