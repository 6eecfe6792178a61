/** A canonical printer, which the parser inverts on every well-formed operation. */
module MclPrinter {
  import opened Wrappers
  import opened Text
  import opened Json
  import opened Strings
  import opened MclSyntax
  import opened MclParser
  import Decimal
  import MclSoundness

  function Bounds(range: Selection): string {
    match range
    case All => ""
    case Index(i) => Decimal.Print(i)
    case Range(start, end) => Decimal.Print(start) + [','] + Decimal.Print(end)
  }

  function PrintSelection(range: Selection): string {
    if range.All? then "" else ['['] + (Bounds(range) + [']'])
  }

  function PrintSelector(selector: Selector): string {
    selector.block + "." + selector.field + PrintSelection(selector.range)
  }

  function PrintSource(source: MessageSource): string {
    match source
    case PromptAlias(alias) => alias
    case Selected(selector) => PrintSelector(selector)
  }

  function PrintSources(sources: MessageExpression): (texts: seq<string>)
    ensures |texts| == |sources|
  {
    if sources == [] then [] else [PrintSource(sources[0])] + PrintSources(sources[1..])
  }

  function PrintExpression(sources: MessageExpression): string
    requires sources != []
  {
    Join(PrintSources(sources), ',')
  }

  function PrintParameter(parameter: Parameter): string
    requires parameter.Expression? ==> parameter.sources != []
  {
    match parameter
    case Expression(sources) => ['('] + (PrintExpression(sources) + [')'])
    case Manual(_) => "?"
    case Empty => "[]"
  }

  function PrintInjected(parameter: Parameter): string
    requires parameter.Expression? ==> parameter.sources != []
  {
    if parameter.Expression? then PrintExpression(parameter.sources) else PrintParameter(parameter)
  }

  predicate Printable(parameters: seq<Parameter>) {
    forall k :: 0 <= k < |parameters| && parameters[k].Expression? ==> parameters[k].sources != []
  }

  /** The parameters of an effect, each after a space. */
  function PrintParameters(parameters: seq<Parameter>): string
    requires Printable(parameters)
    decreases |parameters|, 1
  {
    if parameters == [] then "" else " " + PrintTail(parameters)
  }

  function PrintTail(parameters: seq<Parameter>): string
    requires Printable(parameters) && parameters != []
    decreases |parameters|, 0
  {
    PrintParameter(parameters[0]) + PrintParameters(parameters[1..])
  }

  function PrintKind(kind: ImportKind): string {
    match kind
    case MessageKind => "MESSAGE"
    case ToolKind => "TOOL"
    case SandboxKind => "SANDBOX"
  }

  /** The list of fields with the name before it. */
  function Declaration(name: string, fields: seq<string>): string
    requires fields != []
  {
    name + ['('] + (Join(fields, ',') + [')'])
  }

  function Verb(operation: Operation): string {
    match operation
    case Import(_, _, _) => "IMPORT"
    case Create(_, _, _) => "CREATE"
    case Get(_) => "GET"
    case Inject(_, _) => "INJECT"
    case Config(_) => "CONFIG"
    case Effect(_, _) => "EFFECT"
  }

  function Body(operation: Operation, representable: Json -> bool): string
    requires WellFormed(operation, representable)
  {
    match operation
    case Import(kind, locator, alias) => PrintKind(kind) + " " + (locator + " " + ("AS" + " " + alias))
    case Create(name, fields, temporary) =>
      (if temporary then "TEMP " else "") + ("BLOCK " + Declaration(name, fields))
    case Get(sources) => PrintExpression(sources)
    case Inject(source, target) =>
      PrintInjected(source) + " TO " + PrintSelector(target)
    case Config(ConfigGet) => "GET"
    case Config(ConfigSet(_, _)) => "SET" + " " + ("?" + " " + "?")
    case Config(ConfigDelete(_)) => "DELETE" + " " + "?"
    case Effect(effect, parameters) => effect + PrintParameters(parameters)
  }

  function Print(operation: Operation, representable: Json -> bool): string
    requires WellFormed(operation, representable)
  {
    Verb(operation) + " " + Body(operation, representable)
  }

  /** The arguments that go with the text: one for each `?`, and for `CONFIG` the path and the value themselves. */
  predicate Supplies(operation: Operation, arguments: seq<Json>) {
    match operation
    case Config(ConfigSet(path, value)) => arguments == [Str(path), value]
    case Config(ConfigDelete(path)) => arguments == [Str(path)]
    case _ => |arguments| == Count(operation)
  }

  // ---------------------------------------------------------------- the characters of what is printed

  /** Characters of identifiers and numbers. */
  predicate Bare(c: char) {
    IsAsciiAlphanumeric(c) || c == '_' || c == '-'
  }

  predicate AllBare(text: string) {
    forall k :: 0 <= k < |text| ==> Bare(text[k])
  }

  /** Characters of selectors and expressions. */
  predicate AllDense(text: string) {
    forall k :: 0 <= k < |text| ==>
      Bare(text[k]) || text[k] == '.' || text[k] == ',' || text[k] == '[' || text[k] == ']'
  }

  /** Nothing to trim. */
  predicate Ends(text: string) {
    text != "" && !IsWhitespace(text[0]) && !IsWhitespace(text[|text| - 1])
  }

  lemma TrimEnds(text: string)
    requires Ends(text)
    ensures Trim(text) == text
  {
  }

  lemma TrimSpace(text: string)
    requires text == "" || Ends(text)
    ensures Trim(" " + text) == text
  {
    assert (" " + text)[1..] == text;
    assert TrimStart(" " + text) == TrimStart(text) == text;
  }

  lemma SelectionDense(range: Selection)
    requires ValidSelection(range)
    ensures AllDense(PrintSelection(range))
  {
    BoundsBare(range);
    hide Bounds;
  }

  lemma SelectorDense(selector: Selector)
    requires ValidSelector(selector)
    ensures AllDense(PrintSelector(selector)) && Ends(PrintSelector(selector)) && Bare(PrintSelector(selector)[0])
  {
    SelectionDense(selector.range);
    hide PrintSelection;
  }

  lemma SourceDense(source: MessageSource)
    requires ValidSource(source)
    ensures AllDense(PrintSource(source)) && Ends(PrintSource(source)) && Bare(PrintSource(source)[0])
  {
    if source.Selected? {
      SelectorDense(source.selector);
    }
    hide PrintSelector;
  }

  lemma DenseJoined(first: string, rest: string)
    requires AllDense(first) && AllDense(rest) && Ends(first) && Ends(rest)
    ensures AllDense(first + [','] + rest) && Ends(first + [','] + rest)
  {
    hide IsWhitespace;
    hide Bare;
  }

  lemma {:induction false} ExpressionDense(sources: MessageExpression)
    requires ValidExpression(sources)
    ensures var text := PrintExpression(sources); AllDense(text) && Ends(text) && Bare(text[0])
  {
    SourceDense(sources[0]);
    hide PrintSource;
    hide ValidSource;
    hide AllDense;
    hide Bare;
    if |sources| > 1 {
      ExpressionDense(sources[1..]);
      assert PrintSources(sources)[1..] == PrintSources(sources[1..]);
      DenseJoined(PrintSource(sources[0]), PrintExpression(sources[1..]));
    }
  }

  // ---------------------------------------------------------------- selectors

  lemma NumberRound(i: int)
    requires IsI64(i)
    ensures ParseI64(Decimal.Print(i)) == Some(i) && AllBare(Decimal.Print(i))
  {
    Decimal.PrintParses(i, Decimal.I64_MIN, Decimal.I64_MAX);
    assert Whole(Decimal.Print(i));
  }

  lemma BoundsRound(range: Selection)
    requires ValidSelection(range)
    ensures !range.All? ==> ParseRange(Bounds(range)) == Some(range)
  {
    hide ParseI64;
    hide Decimal.Print;
    match range {
      case All =>
      case Index(i) => NumberRound(i);
      case Range(start, end) =>
        NumberRound(start);
        NumberRound(end);
        SplitOnceAt(Decimal.Print(start), ',', Decimal.Print(end));
    }
  }

  lemma BoundsBare(range: Selection)
    requires ValidSelection(range)
    ensures forall k :: 0 <= k < |Bounds(range)| ==> Bare(Bounds(range)[k]) || Bounds(range)[k] == ','
  {
    hide Decimal.Print;
  }

  lemma PathRound(selector: Selector)
    requires ValidSelector(selector)
    ensures SplitSelector(PrintSelector(selector)) == Some((selector.block + "." + selector.field, selector.range))
  {
    var path, bounds := selector.block + "." + selector.field, Bounds(selector.range);
    PathPlain(selector);
    BoundsBare(selector.range);
    BoundsRound(selector.range);
    hide Bounds;
    hide ParseRange;
    if selector.range.All? {
      assert PrintSelector(selector) == path;
    } else {
      assert PrintSelector(selector) == path + ['['] + (bounds + [']']);
      SplitOnceAt(path, '[', bounds + [']']);
      SuffixOf(bounds, ']');
    }
  }

  lemma SuffixOf(text: string, c: char)
    ensures StripSuffix(text + [c], c) == Some(text)
  {
  }

  lemma PathPlain(selector: Selector)
    requires ValidSelector(selector)
    ensures var path := selector.block + "." + selector.field; '[' !in path && ']' !in path && ',' !in path
    ensures '.' !in selector.block
  {
    hide ValidSelection;
  }

  lemma SelectorRound(selector: Selector)
    requires ValidSelector(selector)
    ensures ParseSelector(PrintSelector(selector)) == Some(selector)
  {
    SelectorDense(selector);
    TrimEnds(PrintSelector(selector));
    PathRound(selector);
    PathPlain(selector);
    SplitOnceAt(selector.block, '.', selector.field);
    hide SplitSelector;
    hide PrintSelector;
    hide Identifier;
    hide Trim;
    hide ValidSelection;
  }

  // ---------------------------------------------------------------- expressions

  /** Text without brackets, and without commas outside brackets, stays in its part. */
  lemma {:induction false} TopBare(text: string, rest: string, depth: nat, part: string)
    requires '[' !in text && ']' !in text && (depth > 0 || ',' !in text)
    ensures SplitTop(text + rest, depth, part) == SplitTop(rest, depth, part + text)
  {
    if text == "" {
      assert text + rest == rest && part + text == part;
    } else {
      assert (text + rest)[1..] == text[1..] + rest;
      TopBare(text[1..], rest, depth, part + [text[0]]);
      assert part + [text[0]] + text[1..] == part + text;
    }
  }

  lemma TopBounds(bounds: string, rest: string, part: string)
    requires '[' !in bounds && ']' !in bounds
    ensures SplitTop(['['] + (bounds + [']']) + rest, 0, part) == SplitTop(rest, 0, part + (['['] + (bounds + [']'])))
  {
    var text, tail := ['['] + (bounds + [']']) + rest, [']'] + rest;
    assert text[1..] == bounds + tail;
    TopBare(bounds, tail, 1, part + ['[']);
    assert tail[1..] == rest;
    assert part + ['['] + bounds + [']'] == part + (['['] + (bounds + [']']));
  }

  lemma TopSelection(range: Selection, rest: string, part: string)
    requires ValidSelection(range)
    ensures SplitTop(PrintSelection(range) + rest, 0, part) == SplitTop(rest, 0, part + PrintSelection(range))
  {
    BoundsBare(range);
    hide Bounds;
    if range.All? {
      assert "" + rest == rest && part + "" == part;
    } else {
      TopBounds(Bounds(range), rest, part);
    }
    hide SplitTop;
  }

  lemma TopSource(source: MessageSource, rest: string, part: string)
    requires ValidSource(source)
    ensures SplitTop(PrintSource(source) + rest, 0, part) == SplitTop(rest, 0, part + PrintSource(source))
  {
    match source {
      case PromptAlias(alias) => TopBare(alias, rest, 0, part);
      case Selected(selector) =>
        var path, range := selector.block + "." + selector.field, PrintSelection(selector.range);
        PathPlain(selector);
        hide PrintSelection;
        hide ValidSelection;
        hide Identifier;
        assert PrintSource(source) + rest == path + (range + rest);
        TopBare(path, range + rest, 0, part);
        TopSelection(selector.range, rest, part + path);
        assert part + path + range == part + PrintSource(source);
    }
  }

  lemma {:induction false} TopJoin(sources: MessageExpression)
    requires ValidExpression(sources)
    ensures SplitTop(PrintExpression(sources), 0, "") == Some(PrintSources(sources))
  {
    var first := PrintSource(sources[0]);
    if |sources| == 1 {
      TopSource(sources[0], "", "");
      assert first + "" == first && "" + first == first;
      assert PrintSources(sources) == [first];
      assert SplitTop("", 0, first) == Some([first]);
    } else {
      var rest := PrintExpression(sources[1..]);
      assert PrintSources(sources)[1..] == PrintSources(sources[1..]);
      assert PrintExpression(sources) == first + ("," + rest);
      TopSource(sources[0], "," + rest, "");
      assert "" + first == first;
      assert ("," + rest)[1..] == rest;
      TopJoin(sources[1..]);
    }
  }

  lemma SelectorHasDot(selector: Selector)
    ensures '.' in PrintSelector(selector)
  {
    hide PrintSelection;
    assert PrintSelector(selector)[|selector.block|] == '.';
  }

  lemma AliasRound(alias: string)
    requires Identifier(alias)
    ensures ParseSource(alias) == Some(PromptAlias(alias))
  {
    TrimWhole(alias);
    assert '.' !in alias;
    hide ParseSelector;
  }

  lemma SourceRound(source: MessageSource)
    requires ValidSource(source)
    ensures ParseSource(PrintSource(source)) == Some(source)
  {
    if source.PromptAlias? {
      AliasRound(source.alias);
    } else {
      hide ParseSelector;
      hide PrintSelector;
      hide Trim;
      SelectorDense(source.selector);
      TrimEnds(PrintSelector(source.selector));
      SelectorRound(source.selector);
      SelectorHasDot(source.selector);
    }
  }

  lemma {:induction false} SourcesRound(sources: MessageExpression)
    requires forall k :: 0 <= k < |sources| ==> ValidSource(sources[k])
    ensures ParseSources(PrintSources(sources)) == Some(sources)
  {
    hide ParseSource;
    hide PrintSource;
    hide ValidSource;
    if sources != [] {
      SourceRound(sources[0]);
      SourcesRound(sources[1..]);
      assert PrintSources(sources)[1..] == PrintSources(sources[1..]);
      assert [sources[0]] + sources[1..] == sources;
    }
  }

  lemma ExpressionRound(sources: MessageExpression)
    requires ValidExpression(sources)
    ensures ParseExpression(PrintExpression(sources)) == Some(sources)
  {
    TopJoin(sources);
    SourcesRound(sources);
  }

  // ---------------------------------------------------------------- operations

  lemma TrimIdentifier(name: string)
    requires Identifier(name)
    ensures Trim(name) == name
  {
    hide Trim;
    IdentifierBare(name);
    BareWhole(name);
    TrimWhole(name);
  }

  lemma IdentifierBare(name: string)
    requires Identifier(name)
    ensures AllBare(name)
  {
  }

  lemma BareWhole(text: string)
    requires AllBare(text)
    ensures Whole(text)
  {
  }

  lemma {:induction false} FieldsRound(fields: seq<string>)
    requires forall k :: 0 <= k < |fields| ==> Identifier(fields[k])
    ensures ParseFields(fields) == Some(fields)
  {
    if fields != [] {
      hide Trim;
      hide Identifier;
      TrimIdentifier(fields[0]);
      FieldsRound(fields[1..]);
      assert [fields[0]] + fields[1..] == fields;
    }
  }

  lemma {:induction false} FieldsDense(fields: seq<string>)
    requires fields != [] && forall k :: 0 <= k < |fields| ==> Identifier(fields[k])
    ensures AllDense(Join(fields, ','))
  {
    if |fields| > 1 {
      FieldsDense(fields[1..]);
    }
  }

  lemma FieldsSplit(fields: seq<string>)
    requires fields != [] && forall k :: 0 <= k < |fields| ==> Identifier(fields[k])
    ensures ParseFields(SplitAll(Join(fields, ','), ',')) == Some(fields)
  {
    assert forall k :: 0 <= k < |fields| ==> ',' !in fields[k];
    JoinSplits(fields, ',');
    FieldsRound(fields);
  }

  lemma DeclarationRound(name: string, fields: seq<string>, temporary: bool)
    requires Identifier(name) && fields != [] && Distinct(fields) && forall k :: 0 <= k < |fields| ==>
             Identifier(fields[k])
    ensures ParseDeclaration(Declaration(name, fields), temporary) == Some(Create(name, fields, temporary))
  {
    assert '(' !in name;
    hide Trim;
    hide Join;
    hide SplitAll;
    hide ParseFields;
    hide Identifier;
    hide StripSuffix;
    SplitOnceAt(name, '(', Join(fields, ',') + [')']);
    SuffixOf(Join(fields, ','), ')');
    TrimIdentifier(name);
    FieldsSplit(fields);
  }

  lemma DeclarationEnds(name: string, fields: seq<string>)
    requires fields != []
    ensures var text := Declaration(name, fields); text != "" && text[|text| - 1] == ')'
  {
    hide Join;
  }

  lemma DeclaredPrefixes(declaration: string)
    requires declaration != "" && declaration[|declaration| - 1] == ')'
    ensures var declared := "BLOCK " + declaration;
            && StripPrefix(declared, "BLOCK ") == Some(declaration)
            && StripPrefix(declared, "TEMP ") == None
            && StripPrefix("TEMP " + declared, "TEMP ") == Some(declared)
            && Trim(declared) == declared
  {
    var declared := "BLOCK " + declaration;
    StripPrefixOf("BLOCK ", declaration);
    StripPrefixOf("TEMP ", declared);
    assert declared[..5][0] == 'B';
    TrimEnds(declared);
  }

  lemma CreateRound(name: string, fields: seq<string>, temporary: bool)
    requires Identifier(name) && fields != [] && Distinct(fields) && forall k :: 0 <= k < |fields| ==>
             Identifier(fields[k])
    ensures ParseCreate((if temporary then "TEMP " else "") + ("BLOCK " + Declaration(name, fields))) ==
            Some(Create(name, fields, temporary))
  {
    hide Identifier;
    hide Distinct;
    DeclarationRound(name, fields, temporary);
    DeclarationEnds(name, fields);
    CreateOf(Declaration(name, fields), temporary);
    hide Declaration;
    hide ParseDeclaration;
    hide ParseCreate;
  }

  lemma CreateOf(declaration: string, temporary: bool)
    requires declaration != "" && declaration[|declaration| - 1] == ')'
    ensures ParseCreate((if temporary then "TEMP " else "") + ("BLOCK " + declaration)) ==
            ParseDeclaration(declaration, temporary)
  {
    hide ParseDeclaration;
    hide StripPrefix;
    hide Trim;
    DeclaredPrefixes(declaration);
    assert "" + ("BLOCK " + declaration) == "BLOCK " + declaration;
  }

  lemma ImportWords(kind: ImportKind, locator: string, alias: string)
    requires ValidLocator(locator) && Identifier(alias)
    ensures Words(PrintKind(kind) + " " + (locator + " " + ("AS" + " " + alias))) ==
            [PrintKind(kind), locator, "AS", alias]
  {
    hide Words;
    KindWhole(kind);
    assert Whole(alias);
    hide Identifier;
    hide PrintKind;
    WordsCons(PrintKind(kind), locator + " " + ("AS" + " " + alias));
    WordsCons(locator, "AS" + " " + alias);
    WordsCons("AS", alias);
    WordsOne(alias);
  }

  lemma KindWhole(kind: ImportKind)
    ensures PrintKind(kind) != "" && Whole(PrintKind(kind)) && ';' !in PrintKind(kind)
  {
  }

  lemma ImportRound(kind: ImportKind, locator: string, alias: string)
    requires ValidLocator(locator) && Identifier(alias)
    ensures ParseImport(PrintKind(kind) + " " + (locator + " " + ("AS" + " " + alias))) ==
            Some(Import(kind, locator, alias))
  {
    hide Words;
    hide Identifier;
    hide ValidLocator;
    ImportWords(kind, locator, alias);
  }

  lemma NotMarks(text: string)
    requires text != "" && Bare(text[0])
    ensures text != "?" && text != "[]"
  {
    assert "?"[0] == '?' && "[]"[0] == '[';
  }

  lemma InjectedRound(source: Parameter)
    requires source.Expression? ==> ValidExpression(source.sources)
    requires source.Manual? ==> source.argument == 0
    ensures ParseInjected(PrintInjected(source)) == Some(source)
  {
    if source.Expression? {
      ExpressionRound(source.sources);
      ExpressionDense(source.sources);
      NotMarks(PrintExpression(source.sources));
    }
    hide PrintExpression;
    hide ParseExpression;
    hide ValidExpression;
  }

  lemma InjectedEnds(source: Parameter)
    requires source.Expression? ==> ValidExpression(source.sources)
    ensures var text := PrintInjected(source); Ends(text) && ' ' !in text && ';' !in text
  {
    if source.Expression? {
      ExpressionDense(source.sources);
    }
    hide PrintExpression;
    hide ValidExpression;
  }

  lemma InjectRound(source: Parameter, target: Selector)
    requires source.Expression? ==> ValidExpression(source.sources)
    requires source.Manual? ==> source.argument == 0
    requires ValidSelector(target)
    ensures ParseInject(PrintInjected(source) + " TO " + PrintSelector(target)) == Some(Inject(source, target))
  {
    hide PrintInjected;
    hide ParseInjected;
    hide ParseSelector;
    hide PrintSelector;
    hide ValidSource;
    hide ValidSelector;
    hide SplitOnceText;
    hide Trim;
    InjectedRound(source);
    InjectedEnds(source);
    SelectorRound(target);
    TrimEnds(PrintInjected(source));
    SplitOnceTextAt(PrintInjected(source), " TO ", PrintSelector(target));
  }

  lemma ConfigRound(config: ConfigOperation, arguments: seq<Json>, representable: Json -> bool)
    requires WellFormed(Config(config), representable) && Supplies(Config(config), arguments)
    ensures ParseConfig(Body(Config(config), representable), arguments, representable) == Ok(Config(config))
  {
    hide ValidPath;
    hide Words;
    match config {
      case ConfigGet =>
        WordsOne("GET");
      case ConfigSet(_, _) =>
        SetWords();
      case ConfigDelete(_) =>
        DeleteWords();
    }
  }

  lemma SetWords()
    ensures Words("SET" + " " + ("?" + " " + "?")) == ["SET", "?", "?"]
  {
    hide Words;
    WordsCons("SET", "?" + " " + "?");
    WordsCons("?", "?");
    WordsOne("?");
  }

  lemma DeleteWords()
    ensures Words("DELETE" + " " + "?") == ["DELETE", "?"]
  {
    hide Words;
    WordsCons("DELETE", "?");
    WordsOne("?");
  }

  // ---------------------------------------------------------------- effects

  ghost predicate ValidParameters(parameters: seq<Parameter>) {
    && (forall k :: 0 <= k < |parameters| ==> !parameters[k].Empty?)
    && (forall k :: 0 <= k < |parameters| && parameters[k].Expression? ==> ValidExpression(parameters[k].sources))
  }

  lemma ParameterEnds(parameter: Parameter)
    requires parameter.Expression? ==> ValidExpression(parameter.sources)
    ensures Ends(PrintParameter(parameter)) && ';' !in PrintParameter(parameter)
  {
    if parameter.Expression? {
      ExpressionDense(parameter.sources);
    }
    hide PrintExpression;
  }

  lemma {:induction false} TailEnds(parameters: seq<Parameter>)
    requires ValidParameters(parameters) && parameters != []
    ensures Ends(PrintTail(parameters)) && ';' !in PrintTail(parameters)
  {
    ParameterEnds(parameters[0]);
    hide PrintParameter;
    hide ValidExpression;
    if |parameters| > 1 {
      TailEnds(parameters[1..]);
    }
  }

  lemma {:induction false} TailRound(parameters: seq<Parameter>, count: nat)
    requires ValidParameters(parameters) && parameters != [] && InOrder(parameters, count)
    ensures ParseParameters(PrintTail(parameters), count) == Some(parameters)
    decreases |parameters|, 1
  {
    RestRound(parameters, count);
    if parameters[0].Manual? {
      ManualFirst(parameters, count);
    } else {
      ExpressionFirst(parameters, count);
    }
  }

  lemma ParseMark(rest: string, others: seq<Parameter>, count: nat)
    requires ParseParameters(Trim(rest), count + 1) == Some(others)
    ensures ParseParameters("?" + rest, count) == Some([Manual(count)] + others)
  {
    hide Trim;
    assert ("?" + rest)[1..] == rest;
  }

  lemma ManualFirst(parameters: seq<Parameter>, count: nat)
    requires Printable(parameters) && parameters != [] && parameters[0] == Manual(count)
    requires ParseParameters(Trim(PrintParameters(parameters[1..])), count + 1) == Some(parameters[1..])
    ensures ParseParameters(PrintTail(parameters), count) == Some(parameters)
  {
    hide ParseParameters;
    hide PrintParameters;
    hide Trim;
    ParseMark(PrintParameters(parameters[1..]), parameters[1..], count);
    assert [parameters[0]] + parameters[1..] == parameters;
  }

  lemma ParseBracketed(inner: string, tail: string, sources: MessageExpression, others: seq<Parameter>, count: nat)
    requires ')' !in inner
    requires ParseExpression(inner) == Some(sources) && ParseParameters(Trim(tail), count) == Some(others)
    ensures ParseParameters(['('] + (inner + [')']) + tail, count) == Some([Expression(sources)] + others)
  {
    hide ParseExpression;
    hide Trim;
    assert (['('] + (inner + [')']) + tail)[1..] == inner + [')'] + tail;
    SplitOnceAt(inner, ')', tail);
  }

  lemma ExpressionInner(sources: MessageExpression)
    requires ValidExpression(sources)
    ensures ParseExpression(PrintExpression(sources)) == Some(sources) && ')' !in PrintExpression(sources)
  {
    hide ParseExpression;
    hide PrintExpression;
    hide ValidSource;
    ExpressionRound(sources);
    ExpressionDense(sources);
    DenseIsInner(PrintExpression(sources));
  }

  lemma DenseIsInner(text: string)
    requires AllDense(text)
    ensures ')' !in text && ';' !in text && ' ' !in text
  {
  }

  lemma ExpressionFirst(parameters: seq<Parameter>, count: nat)
    requires Printable(parameters) && parameters != [] && parameters[0].Expression? &&
             ValidExpression(parameters[0].sources)
    requires ParseParameters(Trim(PrintParameters(parameters[1..])), count) == Some(parameters[1..])
    ensures ParseParameters(PrintTail(parameters), count) == Some(parameters)
  {
    hide PrintExpression;
    hide ParseExpression;
    hide ParseParameters;
    hide ValidExpression;
    hide PrintParameters;
    hide Trim;
    ExpressionInner(parameters[0].sources);
    ParseBracketed(PrintExpression(parameters[0].sources), PrintParameters(parameters[1..]), parameters[0].sources,
                   parameters[1..], count);
    assert [parameters[0]] + parameters[1..] == parameters;
  }

  /** What follows the first parameter parses to the others. */
  lemma RestRound(parameters: seq<Parameter>, count: nat)
    requires ValidParameters(parameters) && parameters != [] && InOrder(parameters, count)
    ensures ParseParameters(Trim(PrintParameters(parameters[1..])), if parameters[0].Manual? then count + 1
            else count) ==
            Some(parameters[1..])
    decreases |parameters|, 0
  {
    var others := parameters[1..];
    if others != [] {
      TailEnds(others);
      TrimSpace(PrintTail(others));
      TailRound(others, if parameters[0].Manual? then count + 1 else count);
    }
    hide ValidExpression;
  }

  lemma EffectWhole(effect: string)
    requires Arity(effect).Some?
    ensures effect != "" && Whole(effect) && ';' !in effect
  {
    assert AllBare("inference") && AllBare("tool_call") && AllBare("sandbox_use") && AllBare("history_append");
    assert AllBare("start_turn") && AllBare("finish_turn") && AllBare("ready") && AllBare("wake");
    assert effect != "" && AllBare(effect);
    BareWhole(effect);
  }

  lemma EffectAlone(effect: string)
    requires Arity(effect) == Some(0)
    ensures ParseEffect(effect) == Some(Effect(effect, []))
  {
    hide Arity;
    hide Trim;
    hide Whole;
    hide SplitWhitespace;
    hide ParseParameters;
    EffectWhole(effect);
    TrimNothing();
    NoParameters();
  }

  lemma EffectRound(effect: string, parameters: seq<Parameter>)
    requires ValidParameters(parameters) && InOrder(parameters, 0) && Arity(effect) == Some(|parameters|)
    ensures ParseEffect(effect + PrintParameters(parameters)) == Some(Effect(effect, parameters))
  {
    hide Arity;
    hide Trim;
    hide Whole;
    hide ParseParameters;
    hide SplitWhitespace;
    hide ValidSource;
    hide InOrder;
    hide PrintTail;
    if parameters == [] {
      hide ParseEffect;
      EffectAlone(effect);
      assert effect + "" == effect;
    } else {
      hide PrintParameters;
      EffectWhole(effect);
      EffectTail(effect, parameters);
    }
  }

  lemma TrimNothing()
    ensures Trim("") == ""
  {
  }

  lemma NoParameters()
    ensures ParseParameters("", 0) == Some([])
  {
  }

  lemma EffectTail(effect: string, parameters: seq<Parameter>)
    requires ValidParameters(parameters) && parameters != [] && InOrder(parameters, 0) && Whole(effect)
    ensures var tail := PrintTail(parameters);
            && SplitWhitespace(effect + PrintParameters(parameters)) == Some((effect, tail))
            && Trim(tail) == tail && ParseParameters(tail, 0) == Some(parameters)
  {
    hide ParseParameters;
    hide ValidSource;
    hide PrintTail;
    hide Trim;
    hide SplitWhitespace;
    TailEnds(parameters);
    TailRound(parameters, 0);
    TrimEnds(PrintTail(parameters));
    SplitWhitespaceAt(effect, PrintTail(parameters));
    assert effect + " " + PrintTail(parameters) == effect + (" " + PrintTail(parameters));
  }

  // ---------------------------------------------------------------- the round trip

  lemma BodyRound(operation: Operation, arguments: seq<Json>, representable: Json -> bool)
    requires WellFormed(operation, representable) && Supplies(operation, arguments)
    ensures ParseVerb(Verb(operation), Body(operation, representable), arguments, representable) == Ok(operation)
  {
    hide ParseImport;
    hide ParseCreate;
    hide ParseInject;
    hide ParseConfig;
    hide ParseEffect;
    hide ParseExpression;
    hide PrintExpression;
    match operation {
      case Import(kind, locator, alias) => ImportRound(kind, locator, alias);
      case Create(name, fields, temporary) => CreateRound(name, fields, temporary);
      case Get(sources) => ExpressionRound(sources);
      case Inject(source, target) => InjectRound(source, target);
      case Config(config) => ConfigRound(config, arguments, representable);
      case Effect(effect, parameters) => EffectRound(effect, parameters);
    }
  }

  /** Nothing to trim, and nothing that ends an instruction. */
  predicate Clean(text: string) {
    Ends(text) && ';' !in text
  }

  lemma Around(before: string, middle: string, after: string)
    requires Clean(before) && Clean(after) && ';' !in middle
    ensures Clean(before + middle + after)
  {
  }

  lemma IdentifierClean(name: string)
    requires Identifier(name)
    ensures Clean(name)
  {
  }

  lemma ImportEnds(kind: ImportKind, locator: string, alias: string)
    requires ValidLocator(locator) && Identifier(alias)
    ensures Clean(PrintKind(kind) + " " + (locator + " " + ("AS" + " " + alias)))
  {
    KindWhole(kind);
    IdentifierClean(alias);
    assert Clean(PrintKind(kind)) && Clean(locator) && Clean("AS");
    hide Clean;
    hide PrintKind;
    hide ValidLocator;
    hide Identifier;
    Around("AS", " ", alias);
    Around(locator, " ", "AS" + " " + alias);
    Around(PrintKind(kind), " ", locator + " " + ("AS" + " " + alias));
  }

  lemma CreateEnds(name: string, fields: seq<string>, temporary: bool)
    requires Identifier(name) && fields != [] && forall k :: 0 <= k < |fields| ==> Identifier(fields[k])
    ensures Clean((if temporary then "TEMP " else "") + ("BLOCK " + Declaration(name, fields)))
  {
    hide Join;
    FieldsDense(fields);
    DenseIsInner(Join(fields, ','));
    var declaration := Declaration(name, fields);
    assert ';' !in declaration && declaration[|declaration| - 1] == ')';
    hide Declaration;
    PrefixedEnds("BLOCK ", declaration);
    PrefixedEnds("TEMP BLOCK ", declaration);
    assert "TEMP " + ("BLOCK " + declaration) == "TEMP BLOCK " + declaration;
    assert "" + ("BLOCK " + declaration) == "BLOCK " + declaration;
  }

  lemma PrefixedEnds(prefix: string, text: string)
    requires prefix != "" && !IsWhitespace(prefix[0]) && ';' !in prefix
    requires text != "" && !IsWhitespace(text[|text| - 1]) && ';' !in text
    ensures Clean(prefix + text)
  {
  }

  lemma InjectEnds(source: Parameter, target: Selector)
    requires (source.Expression? ==> ValidExpression(source.sources)) && ValidSelector(target)
    ensures Clean(PrintInjected(source) + " TO " + PrintSelector(target))
  {
    hide PrintInjected;
    hide PrintSelector;
    hide ValidSelector;
    hide ValidSource;
    InjectedEnds(source);
    SelectorDense(target);
    DenseIsInner(PrintSelector(target));
    Around(PrintInjected(source), " TO ", PrintSelector(target));
  }

  lemma EffectEnds(effect: string, parameters: seq<Parameter>)
    requires ValidParameters(parameters) && Arity(effect).Some?
    ensures Clean(effect + PrintParameters(parameters))
  {
    EffectWhole(effect);
    hide Arity;
    hide ValidSource;
    if parameters == [] {
      assert effect + "" == effect;
    } else {
      TailEnds(parameters);
      Appended(effect, PrintTail(parameters));
    }
  }

  lemma Appended(effect: string, tail: string)
    requires effect != "" && Whole(effect) && ';' !in effect && Clean(tail)
    ensures Clean(effect + (" " + tail))
  {
    Around(effect, " ", tail);
    assert effect + " " + tail == effect + (" " + tail);
  }

  lemma GetEnds(sources: MessageExpression)
    requires ValidExpression(sources)
    ensures Clean(PrintExpression(sources))
  {
    hide PrintExpression;
    hide ValidSource;
    ExpressionDense(sources);
    DenseIsInner(PrintExpression(sources));
  }

  lemma BodyEnds(operation: Operation, representable: Json -> bool)
    requires WellFormed(operation, representable)
    ensures Clean(Body(operation, representable))
  {
    match operation {
      case Import(kind, locator, alias) => ImportEnds(kind, locator, alias);
      case Create(name, fields, temporary) => CreateEnds(name, fields, temporary);
      case Get(sources) => GetEnds(sources);
      case Inject(source, target) => InjectEnds(source, target);
      case Config(config) =>
      case Effect(effect, parameters) => EffectEnds(effect, parameters);
    }
  }

  lemma VerbClean(operation: Operation)
    ensures Clean(Verb(operation)) && Whole(Verb(operation))
  {
  }

  lemma InstructionSplits(verb: string, body: string)
    requires Clean(verb) && Whole(verb) && Clean(body)
    ensures var text := verb + " " + body;
            && Trim(text) == text && text != "" && ';' !in text
            && SplitWhitespace(text) == Some((verb, body)) && Trim(body) == body
  {
    hide Trim;
    hide SplitWhitespace;
    Around(verb, " ", body);
    TrimEnds(body);
    TrimEnds(verb + " " + body);
    SplitWhitespaceAt(verb, body);
  }

  /** Every well-formed operation is printed as an instruction that parses back to it. */
  lemma PrintParses(operation: Operation, arguments: seq<Json>, representable: Json -> bool)
    requires WellFormed(operation, representable) && Supplies(operation, arguments)
    ensures Parse(Instruction(Print(operation, representable), arguments), representable) == Ok(operation)
  {
    hide Body;
    hide Verb;
    hide ParseVerb;
    hide WellFormed;
    hide Trim;
    hide Clean;
    hide SplitWhitespace;
    hide Count;
    hide Supplies;
    VerbClean(operation);
    BodyEnds(operation, representable);
    InstructionSplits(Verb(operation), Body(operation, representable));
    BodyRound(operation, arguments, representable);
    SuppliedCount(operation, arguments);
  }

  lemma SuppliedCount(operation: Operation, arguments: seq<Json>)
    requires Supplies(operation, arguments)
    ensures |arguments| == Count(operation)
  {
  }

  /** The parser accepts an operation exactly when it is well-formed. */
  lemma ParserIsExact(operation: Operation, representable: Json -> bool)
    ensures WellFormed(operation, representable) <==>
            exists input :: Parse(input, representable) == Ok(operation)
  {
    if WellFormed(operation, representable) {
      var arguments := SomeArguments(operation);
      PrintParses(operation, arguments, representable);
    }
    if input :| Parse(input, representable) == Ok(operation) {
      MclSoundness.AcceptedIsWellFormed(input, representable);
    }
  }

  function SomeArguments(operation: Operation): (arguments: seq<Json>)
    ensures Supplies(operation, arguments)
  {
    match operation
    case Config(ConfigSet(path, value)) => [Str(path), value]
    case Config(ConfigDelete(path)) => [Str(path)]
    case _ => seq(Count(operation), k => Null)
  }
}
