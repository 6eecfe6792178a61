/** Everything the parser accepts is well-formed, and its `?` parameters take the arguments in order. */
module MclSoundness {
  import opened Wrappers
  import opened Json
  import opened Text
  import opened Strings
  import opened MclSyntax
  import opened MclParser

  /** The arguments from `next` on. */
  function From(next: nat, count: nat): seq<nat> {
    seq(count, k requires 0 <= k => next + k)
  }

  lemma FromCons(next: nat, count: nat)
    requires count > 0
    ensures From(next, count) == [next] + From(next + 1, count - 1)
  {
  }

  /** Well-formed, and its `?` take the arguments from the first on. */
  ghost predicate Sound(operation: Operation, representable: Json -> bool) {
    WellFormed(operation, representable) && ArgumentsUsed(operation) == From(0, Count(operation))
  }

  lemma RangeSound(bounds: string)
    ensures ParseRange(bounds).Some? ==> ValidSelection(ParseRange(bounds).value)
  {
    hide Trim;
  }

  lemma SplitSound(text: string)
    ensures SplitSelector(text).Some? ==> ValidSelection(SplitSelector(text).value.1)
  {
    var split := SplitOnce(text, '[');
    if split.Some? {
      var bounds := StripSuffix(split.value.1, ']');
      if bounds.Some? {
        RangeSound(bounds.value);
      }
    }
    hide ParseRange;
    hide StripSuffix;
  }

  lemma SelectorSound(text: string)
    ensures ParseSelector(text).Some? ==> ValidSelector(ParseSelector(text).value)
  {
    SplitSound(Trim(text));
    hide SplitSelector;
    hide Trim;
    hide Identifier;
  }

  lemma SourceSound(part: string)
    ensures ParseSource(part).Some? ==> ValidSource(ParseSource(part).value)
  {
    hide Trim;
    hide ParseSelector;
    hide ValidSelector;
    hide Identifier;
    SelectorSound(Trim(part));
  }

  lemma {:induction false} SourcesSound(parts: seq<string>)
    ensures var sources := ParseSources(parts);
            sources.Some? ==> |sources.value| == |parts| && forall k :: 0 <= k < |sources.value| ==>
                ValidSource(sources.value[k])
  {
    hide ParseSource;
    hide ValidSource;
    if parts != [] {
      SourceSound(parts[0]);
      SourcesSound(parts[1..]);
    }
  }

  lemma {:induction false} PartsNonempty(text: string, depth: nat, part: string)
    ensures SplitTop(text, depth, part).Some? ==> SplitTop(text, depth, part).value != []
    decreases |text|
  {
    if text != "" {
      PartsNonempty(text[1..], depth + 1, part + [text[0]]);
      PartsNonempty(text[1..], depth, part + [text[0]]);
      if depth > 0 {
        PartsNonempty(text[1..], depth - 1, part + [text[0]]);
      }
    }
  }

  lemma ExpressionSound(text: string)
    ensures ParseExpression(text).Some? ==> ValidExpression(ParseExpression(text).value)
  {
    PartsNonempty(text, 0, "");
    if SplitTop(text, 0, "").Some? {
      SourcesSound(SplitTop(text, 0, "").value);
    }
  }

  lemma {:induction false} FieldsSound(parts: seq<string>)
    ensures var fields := ParseFields(parts);
            fields.Some? ==> |fields.value| == |parts| && forall k :: 0 <= k < |fields.value| ==>
                Identifier(fields.value[k])
  {
    hide Trim;
    hide Identifier;
    if parts != [] {
      FieldsSound(parts[1..]);
    }
  }

  lemma DeclarationSound(text: string, temporary: bool, representable: Json -> bool)
    ensures ParseDeclaration(text, temporary).Some? ==> Sound(ParseDeclaration(text, temporary).value, representable)
  {
    NoneUsed();
    hide From;
    hide Trim;
    hide Identifier;
    hide Distinct;
    hide StripSuffix;
    hide ParseFields;
    hide SplitAll;
    if ParseDeclaration(text, temporary).Some? {
      var list := SplitOnce(text, '(').value.1;
      FieldsSound(SplitAll(StripSuffix(list, ')').value, ','));
    }
  }

  lemma CreateSound(body: string, representable: Json -> bool)
    ensures ParseCreate(body).Some? ==> Sound(ParseCreate(body).value, representable)
  {
    hide ParseDeclaration;
    hide Sound;
    hide Trim;
    if ParseCreate(body).Some? {
      var temporary := StripPrefix(body, "TEMP ");
      var rest := StripPrefix(if temporary.Some? then Trim(temporary.value) else body, "BLOCK ");
      DeclarationSound(rest.value, temporary.Some?, representable);
    }
  }

  lemma ImportSound(body: string, representable: Json -> bool)
    requires ';' !in body
    ensures ParseImport(body).Some? ==> Sound(ParseImport(body).value, representable)
  {
    hide Words;
    hide Identifier;
    hide From;
    WordsWithin(body, ';');
    NoneUsed();
  }

  lemma NoneUsed()
    ensures From(0, 0) == []
  {
  }

  lemma InjectedSound(text: string)
    ensures var source := ParseInjected(text);
            source.Some? ==>
              && (source.value.Expression? ==> ValidExpression(source.value.sources))
              && (source.value.Manual? ==> source.value.argument == 0)
              && Manuals([source.value]) == From(0, if source.value.Manual? then 1 else 0)
  {
    assert forall p: Parameter :: [p][1..] == [];
    ExpressionSound(text);
    hide ParseExpression;
    hide ValidExpression;
  }

  lemma InjectSound(body: string, representable: Json -> bool)
    ensures ParseInject(body).Some? ==> Sound(ParseInject(body).value, representable)
  {
    hide ParseInjected;
    hide Manuals;
    hide From;
    hide ParseSelector;
    hide SplitOnceText;
    hide ValidExpression;
    hide ValidSelector;
    hide Trim;
    var split := SplitOnceText(body, " TO ");
    if split.Some? {
      InjectedSound(Trim(split.value.0));
      SelectorSound(split.value.1);
    }
  }

  lemma ConfigSound(body: string, arguments: seq<Json>, representable: Json -> bool)
    ensures var operation := ParseConfig(body, arguments, representable);
            operation.Ok? ==> Sound(operation.value, representable)
  {
    hide Words;
    hide ValidPath;
    assert From(0, 2) == [0, 1];
    assert From(0, 1) == [0];
    assert From(0, 0) == [];
  }

  /** Well-formed parameters whose `?` are numbered from `count` on. */
  ghost predicate Numbered(parameters: seq<Parameter>, count: nat) {
    && (forall k :: 0 <= k < |parameters| ==> !parameters[k].Empty?)
    && (forall k :: 0 <= k < |parameters| && parameters[k].Expression? ==> ValidExpression(parameters[k].sources))
    && InOrder(parameters, count)
    && Manuals(parameters) == From(count, CountManual(parameters))
  }

  lemma NumberedManual(count: nat, others: seq<Parameter>)
    requires Numbered(others, count + 1)
    ensures Numbered([Manual(count)] + others, count)
  {
    var parameters := [Manual(count)] + others;
    assert parameters[1..] == others;
    FromCons(count, CountManual(parameters));
    hide From;
    hide ValidExpression;
  }

  lemma NumberedExpression(sources: MessageExpression, count: nat, others: seq<Parameter>)
    requires Numbered(others, count) && ValidExpression(sources)
    ensures Numbered([Expression(sources)] + others, count)
  {
    var parameters := [Expression(sources)] + others;
    assert parameters[1..] == others;
    hide From;
    hide ValidExpression;
  }

  lemma {:induction false} ParametersSound(rest: string, count: nat)
    ensures ParseParameters(rest, count).Some? ==> Numbered(ParseParameters(rest, count).value, count)
    decreases |rest|
  {
    if rest != "" && ParseParameters(rest, count).Some? {
      if rest[0] == '?' {
        ParametersSound(Trim(rest[1..]), count + 1);
        NumberedManual(count, ParseParameters(Trim(rest[1..]), count + 1).value);
      } else {
        var (inner, tail) := SplitOnce(rest[1..], ')').value;
        ExpressionSound(inner);
        ParametersSound(Trim(tail), count);
        NumberedExpression(ParseExpression(inner).value, count, ParseParameters(Trim(tail), count).value);
      }
    }
    hide Numbered;
    hide ParseExpression;
    hide ValidExpression;
  }

  lemma EffectSound(body: string, representable: Json -> bool)
    ensures var operation := ParseEffect(body);
            operation.Some? ==> Sound(operation.value, representable)
  {
    hide SplitWhitespace;
    hide Trim;
    hide Arity;
    hide ValidExpression;
    hide From;
    var rest := SplitWhitespace(body).GetOr((body, "")).1;
    ParametersSound(Trim(rest), 0);
    hide ParseParameters;
    hide InOrder;
    hide Manuals;
    hide CountManual;
  }

  lemma GetSound(body: string, representable: Json -> bool)
    ensures ParseExpression(body).Some? ==> Sound(Get(ParseExpression(body).value), representable)
  {
    ExpressionSound(body);
    hide ParseExpression;
    hide ValidExpression;
    assert From(0, 0) == [];
  }

  lemma VerbSound(verb: string, body: string, arguments: seq<Json>, representable: Json -> bool)
    requires ';' !in body
    ensures var operation := ParseVerb(verb, body, arguments, representable);
            operation.Ok? ==> Sound(operation.value, representable)
  {
    hide ParseCreate;
    hide ParseImport;
    hide ParseInject;
    hide ParseConfig;
    hide ParseEffect;
    hide Sound;
    if verb == "CREATE" {
      CreateSound(body, representable);
    } else if verb == "IMPORT" {
      ImportSound(body, representable);
    } else if verb == "GET" {
      GetSound(body, representable);
    } else if verb == "INJECT" {
      InjectSound(body, representable);
    } else if verb == "CONFIG" {
      ConfigSound(body, arguments, representable);
    } else if verb == "EFFECT" {
      EffectSound(body, representable);
    }
  }

  /** Whatever is accepted is well-formed, and its `?` use every argument exactly once, in order. */
  lemma AcceptedIsWellFormed(input: Instruction, representable: Json -> bool)
    ensures var operation := Parse(input, representable);
            operation.Ok? ==>
              && WellFormed(operation.value, representable)
              && |ArgumentsUsed(operation.value)| == |input.arguments|
              && forall k :: 0 <= k < |input.arguments| ==> ArgumentsUsed(operation.value)[k] == k
  {
    hide ParseVerb;
    hide WellFormed;
    hide Count;
    hide ArgumentsUsed;
    hide Trim;
    hide SplitWhitespace;
    var text := Trim(input.text);
    if ';' !in text {
      var (verb, body) := SplitWhitespace(text).GetOr((text, ""));
      if SplitWhitespace(text).Some? {
        SliceWithout(text, |verb| + 1, |text|, ';');
      }
      TrimWithin(body);
      VerbSound(verb, Trim(body), input.arguments, representable);
    }
  }

  lemma TrimWithin(text: string)
    requires ';' !in text
    ensures ';' !in Trim(text)
  {
    hide Trim;
  }

  lemma {:induction false} SetFits(names: seq<string>)
    ensures |set name | name in names| <= |names|
  {
    if names != [] {
      var init, last := names[..|names| - 1], names[|names| - 1];
      SetFits(init);
      assert names == init + [last];
      assert (set name | name in names) == (set name | name in init) + {last};
    }
  }

  /** The fields of a declaration are pairwise different exactly when their set is as large as their list. */
  lemma {:induction false} DistinctIsCardinality(names: seq<string>)
    ensures Distinct(names) <==> |set name | name in names| == |names|
  {
    if names != [] {
      var init, last := names[..|names| - 1], names[|names| - 1];
      DistinctIsCardinality(init);
      SetFits(init);
      assert names == init + [last];
      var some := set name | name in init;
      assert (set name | name in names) == some + {last};
      if last in init {
        var k :| 0 <= k < |init| && init[k] == last;
        assert names[k] == names[|init|];
        assert some + {last} == some;
      } else {
        assert |some + {last}| == |some| + 1;
        assert Distinct(names) <==> Distinct(init);
      }
    }
  }

  // ---------------------------------------------------------------- config paths

  /** No empty part, no control character and no bracket. */
  predicate Dotted(path: string) {
    && path != "" && path[0] != '.' && path[|path| - 1] != '.'
    && (forall k :: 0 <= k < |path| - 1 ==> path[k] != '.' || path[k + 1] != '.')
    && forall k :: 0 <= k < |path| ==> !IsControl(path[k]) && path[k] != '[' && path[k] != ']'
  }

  lemma DottedSplits(before: string, after: string)
    requires '.' !in before && Dotted(before + ['.'] + after)
    ensures !InvalidPart(before) && Dotted(after)
  {
    hide IsControl;
    var path, n := before + ['.'] + after, |before| + 1;
    assert path[n - 1] == '.' && path[..|before|] == before && path[n..] == after;
    assert before != "" && after != "";
    assert after[0] != '.' by {
      assert path[n - 1] != '.' || path[n] != '.';
    }
    forall k | 0 <= k < |after| - 1 ensures after[k] != '.' || after[k + 1] != '.' {
      assert path[n + k] != '.' || path[n + k + 1] != '.';
    }
  }

  lemma DottedJoins(before: string, after: string)
    requires '.' !in before && !InvalidPart(before) && Dotted(after)
    ensures Dotted(before + ['.'] + after)
  {
    hide IsControl;
    var path, n := before + ['.'] + after, |before| + 1;
    forall k | 0 <= k < |path| ensures !IsControl(path[k]) && path[k] != '[' && path[k] != ']' {
      if k >= n {
        assert path[k] == after[k - n];
      } else if k < |before| {
        assert path[k] == before[k];
      } else {
        PlainDot();
      }
    }
    forall k | 0 <= k < |path| - 1 ensures path[k] != '.' || path[k + 1] != '.' {
      if k >= n {
        assert path[k] == after[k - n] && path[k + 1] == after[k + 1 - n];
      } else if k == |before| {
        assert path[k + 1] == after[0];
      } else {
        assert path[k] == before[k];
      }
    }
  }

  lemma PlainDot()
    ensures !IsControl('.')
  {
  }

  lemma PlainPart(path: string)
    requires '.' !in path
    ensures Dotted(path) <==> !InvalidPart(path)
  {
  }

  lemma PartsCons(first: string, rest: seq<string>)
    ensures var parts := [first] + rest;
            (forall k :: 0 <= k < |parts| ==> !InvalidPart(parts[k])) <==>
              !InvalidPart(first) && forall k :: 0 <= k < |rest| ==> !InvalidPart(rest[k])
  {
    hide InvalidPart;
    var parts := [first] + rest;
    if forall k :: 0 <= k < |parts| ==> !InvalidPart(parts[k]) {
      assert parts[0] == first;
      forall k | 0 <= k < |rest| ensures !InvalidPart(rest[k]) {
        assert rest[k] == parts[k + 1];
      }
    }
  }

  lemma PathParts(path: string, before: string, after: string)
    requires SplitOnce(path, '.') == Some((before, after)) && |after| < |path|
    ensures ValidPath(path) <==> !InvalidPart(before) && ValidPath(after)
  {
    hide InvalidPart;
    assert SplitAll(path, '.') == [before] + SplitAll(after, '.');
    hide SplitAll;
    hide SplitOnce;
    PartsCons(before, SplitAll(after, '.'));
  }

  /** A config path is valid exactly when its characters are those of nonempty parts between single dots. */
  lemma {:induction false} PathExactly(path: string)
    ensures ValidPath(path) <==> Dotted(path)
    decreases |path|
  {
    hide Dotted;
    hide InvalidPart;
    match SplitOnce(path, '.') {
      case None =>
        PlainPart(path);
        assert SplitAll(path, '.') == [path] && SplitAll(path, '.')[0] == path;
      case Some((before, after)) =>
        assert path == before + ['.'] + after;
        PathParts(path, before, after);
        PathExactly(after);
        hide ValidPath;
        if Dotted(path) {
          DottedSplits(before, after);
        }
        if !InvalidPart(before) && Dotted(after) {
          DottedJoins(before, after);
        }
    }
  }

  // ---------------------------------------------------------------- effects

  /** The parameters of every effect that there is. */
  lemma EffectArities(effect: string)
    ensures Arity(effect) == Some(1) <==> effect in {"inference", "tool_call", "sandbox_use", "history_append"}
    ensures Arity(effect) == Some(0) <==> effect in {"start_turn", "finish_turn", "ready", "wake"}
    ensures Arity(effect).Some? ==> Arity(effect).value <= 1
  {
    assert |"inference"| == 9 && |"tool_call"| == 9 && |"sandbox_use"| == 11 && |"history_append"| == 14;
    assert |"start_turn"| == 10 && |"finish_turn"| == 11 && |"ready"| == 5 && |"wake"| == 4;
    assert "sandbox_use"[0] == 's' && "finish_turn"[0] == 'f';
  }
}
