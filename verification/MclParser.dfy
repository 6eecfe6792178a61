/** The parser of the command language, branch by branch. */
module MclParser {
  import opened Wrappers
  import opened Json
  import opened Strings
  import opened MclSyntax
  import Decimal

  function ParseI64(text: string): Option<int> {
    Decimal.ParseInt(Trim(text), Decimal.I64_MIN, Decimal.I64_MAX)
  }

  function ParseRange(bounds: string): Option<Selection> {
    match SplitOnce(bounds, ',')
    case Some((first, second)) =>
      var start, end := ParseI64(first), ParseI64(second);
      if start.None? || end.None? || start.value >= end.value || (start.value < 0) != (end.value < 0) then None
      else Some(Range(start.value, end.value))
    case None =>
      var index := ParseI64(bounds);
      if index.None? then None else Some(Index(index.value))
  }

  /** The path of a selector and its selection, which is everything without brackets. */
  function SplitSelector(text: string): Option<(string, Selection)> {
    match SplitOnce(text, '[')
    case None => Some((text, All))
    case Some((path, rest)) =>
      var bounds := StripSuffix(rest, ']');
      if bounds.None? then None
      else
        var range := ParseRange(bounds.value);
        if range.None? then None else Some((path, range.value))
  }

  function ParseSelector(text: string): Option<Selector> {
    var split := SplitSelector(Trim(text));
    if split.None? then None
    else
      match SplitOnce(split.value.0, '.')
      case None => None
      case Some((block, field)) =>
        if Identifier(block) && Identifier(field) then Some(Selector(block, field, split.value.1)) else None
  }

  /** The parts between the commas outside brackets; none when the brackets do not match. */
  function SplitTop(text: string, depth: nat, part: string): Option<seq<string>>
    decreases |text|
  {
    if text == "" then if depth == 0 then Some([part]) else None
    else if text[0] == '[' then SplitTop(text[1..], depth + 1, part + [text[0]])
    else if text[0] == ']' then if depth == 0 then None else SplitTop(text[1..], depth - 1, part + [text[0]])
    else if text[0] == ',' && depth == 0 then
      match SplitTop(text[1..], 0, "")
      case None => None
      case Some(parts) => Some([part] + parts)
    else SplitTop(text[1..], depth, part + [text[0]])
  }

  function ParseSource(part: string): Option<MessageSource> {
    var text := Trim(part);
    if '.' in text then
      match ParseSelector(text)
      case None => None
      case Some(selector) => Some(Selected(selector))
    else if Identifier(text) then Some(PromptAlias(text))
    else None
  }

  function ParseSources(parts: seq<string>): Option<MessageExpression> {
    if parts == [] then Some([])
    else
      var source, rest := ParseSource(parts[0]), ParseSources(parts[1..]);
      if source.None? || rest.None? then None else Some([source.value] + rest.value)
  }

  function ParseExpression(text: string): Option<MessageExpression> {
    match SplitTop(text, 0, "")
    case None => None
    case Some(parts) => ParseSources(parts)
  }

  function ParseFields(parts: seq<string>): Option<seq<string>> {
    if parts == [] then Some([])
    else
      var field, rest := Trim(parts[0]), ParseFields(parts[1..]);
      if !Identifier(field) || rest.None? then None else Some([field] + rest.value)
  }

  function ParseCreate(body: string): Option<Operation> {
    var temporary := StripPrefix(body, "TEMP ");
    var rest := StripPrefix(if temporary.Some? then Trim(temporary.value) else body, "BLOCK ");
    if rest.None? then None else ParseDeclaration(rest.value, temporary.Some?)
  }

  function ParseDeclaration(text: string, temporary: bool): Option<Operation> {
    match SplitOnce(text, '(')
    case None => None
    case Some((name, list)) =>
      var inner := StripSuffix(list, ')');
      if !Identifier(Trim(name)) || inner.None? then None
      else
        var fields := ParseFields(SplitAll(inner.value, ','));
        if fields.None? || !Distinct(fields.value) then None
        else Some(Create(Trim(name), fields.value, temporary))
  }

  function ParseImport(body: string): Option<Operation> {
    var words := Words(body);
    if |words| != 4 || words[2] != "AS" || !Identifier(words[3]) then None
    else if words[0] == "MESSAGE" then Some(Import(MessageKind, words[1], words[3]))
    else if words[0] == "TOOL" then Some(Import(ToolKind, words[1], words[3]))
    else if words[0] == "SANDBOX" then Some(Import(SandboxKind, words[1], words[3]))
    else None
  }

  function ParseInjected(text: string): Option<Parameter> {
    if text == "?" then Some(Manual(0))
    else if text == "[]" then Some(Empty)
    else
      match ParseExpression(text)
      case None => None
      case Some(sources) => Some(Expression(sources))
  }

  function ParseInject(body: string): Option<Operation> {
    match SplitOnceText(body, " TO ")
    case None => None
    case Some((source, target)) =>
      var parameter, selector := ParseInjected(Trim(source)), ParseSelector(target);
      if parameter.None? || selector.None? then None else Some(Inject(parameter.value, selector.value))
  }

  function ConfigPath(arguments: seq<Json>): Result<string, ParseError> {
    if arguments != [] && arguments[0].Str? && ValidPath(arguments[0].text) then Ok(arguments[0].text)
    else Err(ConfigPathInvalid)
  }

  function ParseConfig(body: string, arguments: seq<Json>, representable: Json -> bool): Result<Operation, ParseError> {
    var words := Words(body);
    if words == ["GET"] then Ok(Config(ConfigGet))
    else if words == ["SET", "?", "?"] then
      var path :- ConfigPath(arguments);
      if |arguments| < 2 then Err(ParseFailed)
      else if !representable(arguments[1]) then Err(ConfigTypeMismatch)
      else Ok(Config(ConfigSet(path, arguments[1])))
    else if words == ["DELETE", "?"] then
      var path :- ConfigPath(arguments);
      Ok(Config(ConfigDelete(path)))
    else Err(ParseFailed)
  }

  /** The parameters of an effect; `count` numbers the next `?`. */
  function ParseParameters(rest: string, count: nat): Option<seq<Parameter>>
    decreases |rest|
  {
    if rest == "" then Some([])
    else if rest[0] == '?' then
      match ParseParameters(Trim(rest[1..]), count + 1)
      case None => None
      case Some(others) => Some([Manual(count)] + others)
    else if rest[0] == '(' then
      match SplitOnce(rest[1..], ')')
      case None => None
      case Some((inner, tail)) =>
        var sources, others := ParseExpression(inner), ParseParameters(Trim(tail), count);
        if sources.None? || others.None? then None else Some([Expression(sources.value)] + others.value)
    else None
  }

  function ParseEffect(body: string): Option<Operation> {
    var (effect, rest) := SplitWhitespace(body).GetOr((body, ""));
    if Arity(effect).None? then None
    else
      var parameters := ParseParameters(Trim(rest), 0);
      if parameters.None? || Arity(effect) != Some(|parameters.value|) then None
          else Some(Effect(effect, parameters.value))
  }

  /** How many `?` the text of an operation holds. */
  function Count(operation: Operation): nat {
    match operation
    case Inject(source, _) => if source.Manual? then 1 else 0
    case Config(ConfigSet(_, _)) => 2
    case Config(ConfigDelete(_)) => 1
    case Effect(_, parameters) => CountManual(parameters)
    case _ => 0
  }

  function CountManual(parameters: seq<Parameter>): nat {
    if parameters == [] then 0 else (if parameters[0].Manual? then 1 else 0) + CountManual(parameters[1..])
  }

  function OrFailed(operation: Option<Operation>): Result<Operation, ParseError> {
    if operation.None? then Err(ParseFailed) else Ok(operation.value)
  }

  function ParseVerb(verb: string, body: string, arguments: seq<Json>, representable: Json -> bool): Result<Operation,
      ParseError> {
    if verb == "CREATE" then OrFailed(ParseCreate(body))
    else if verb == "IMPORT" then OrFailed(ParseImport(body))
    else if verb == "GET" then
      var sources := ParseExpression(body);
      if sources.None? then Err(ParseFailed) else Ok(Get(sources.value))
    else if verb == "INJECT" then OrFailed(ParseInject(body))
    else if verb == "CONFIG" then ParseConfig(body, arguments, representable)
    else if verb == "EFFECT" then OrFailed(ParseEffect(body))
    else Err(ParseFailed)
  }

  /** `parse_instruction`; `representable` says which values convert to TOML, each named by itself. */
  function Parse(input: Instruction, representable: Json -> bool): Result<Operation, ParseError> {
    var text := Trim(input.text);
    if text == "" || ';' in text then Err(ParseFailed)
    else
      var (verb, body) := SplitWhitespace(text).GetOr((text, ""));
      var operation :- ParseVerb(verb, Trim(body), input.arguments, representable);
      if |input.arguments| != Count(operation) then Err(ArgumentMismatch) else Ok(operation)
  }
}
