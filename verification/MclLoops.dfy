/** The two scanning loops of the parser, over mutable depth, rest and count, against their recursive forms. */
module MclLoops {
  import opened Wrappers
  import opened Strings
  import opened MclSyntax
  import opened MclParser

  function Prepended<T>(done: seq<T>, rest: Option<seq<T>>): Option<seq<T>> {
    if rest.None? then None else Some(done + rest.value)
  }

  lemma PrependNone<T>(rest: Option<seq<T>>)
    ensures Prepended([], rest) == rest
  {
    if rest.Some? {
      assert [] + rest.value == rest.value;
    }
  }

  lemma PrependOne<T>(done: seq<T>, x: T, rest: Option<seq<T>>)
    ensures Prepended(done, Prepended([x], rest)) == Prepended(done + [x], rest)
  {
    if rest.Some? {
      assert done + ([x] + rest.value) == done + [x] + rest.value;
    }
  }

  /** One step of the scan, from the character at `k` with the part that started at `start`. */
  lemma ScanStep(text: string, k: nat, depth: nat, start: nat)
    requires start <= k < |text|
    ensures var now, next := SplitTop(text[k..], depth, text[start..k]), text[start..k + 1];
            && (text[k] == '[' ==> now == SplitTop(text[k + 1..], depth + 1, next))
            && (text[k] == ']' ==> now == if depth == 0 then None else SplitTop(text[k + 1..], depth - 1, next))
            && (text[k] == ',' && depth == 0 ==>
                  now == Prepended([text[start..k]], SplitTop(text[k + 1..], 0, text[k + 1..k + 1])))
            && (text[k] != '[' && text[k] != ']' && (text[k] != ',' || depth > 0) ==>
                  now == SplitTop(text[k + 1..], depth, next))
  {
    assert text[k..][0] == text[k] && text[k..][1..] == text[k + 1..];
    assert text[start..k] + [text[k]] == text[start..k + 1];
    assert text[k + 1..k + 1] == "";
  }

  /** The scan of `expression` for the commas outside brackets. */
  method SplitExpression(text: string) returns (result: Option<seq<string>>)
    ensures result == SplitTop(text, 0, "")
  {
    var depth: int, start, k := 0, 0, 0;
    var parts: seq<string> := [];
    assert text[0..] == text && text[0..0] == "";
    PrependNone(SplitTop(text, 0, ""));
    while k < |text|
      invariant 0 <= start <= k <= |text| && depth >= 0
      invariant SplitTop(text, 0, "") == Prepended(parts, SplitTop(text[k..], depth, text[start..k]))
    {
      ScanStep(text, k, depth, start);
      if text[k] == '[' {
        depth := depth + 1;
      } else if text[k] == ']' {
        depth := depth - 1;
        if depth < 0 {
          return None;
        }
      } else if text[k] == ',' && depth == 0 {
        PrependOne(parts, text[start..k], SplitTop(text[k + 1..], 0, text[k + 1..k + 1]));
        parts := parts + [text[start..k]];
        start := k + 1;
      }
      k := k + 1;
    }
    assert text[k..] == "";
    if depth != 0 {
      return None;
    }
    assert text[start..] == text[start..k];
    return Some(parts + [text[start..]]);
  }

  lemma ParameterStep(rest: string, count: nat)
    requires rest != ""
    ensures rest[0] == '?' ==>
              ParseParameters(rest, count) == Prepended([Manual(count)], ParseParameters(Trim(rest[1..]), count + 1))
    ensures rest[0] == '(' && SplitOnce(rest[1..], ')').Some? ==>
              var (inner, tail) := SplitOnce(rest[1..], ')').value;
              ParseParameters(rest, count) ==
                if ParseExpression(inner).None? then None
                else Prepended([Expression(ParseExpression(inner).value)], ParseParameters(Trim(tail), count))
  {
    hide Trim;
    hide ParseExpression;
  }

  /** The parameter loop of `EFFECT`: the parameters and how many of them are `?`. */
  method EffectParameters(text: string) returns (result: Option<seq<Parameter>>, count: nat)
    ensures result == ParseParameters(text, 0)
    ensures result.Some? ==> count == CountManual(result.value)
  {
    hide Trim;
    hide ParseExpression;
    var rest, arguments := text, [];
    count := 0;
    PrependNone(ParseParameters(text, 0));
    while rest != ""
      invariant ParseParameters(text, 0) == Prepended(arguments, ParseParameters(rest, count))
      invariant count == CountManual(arguments)
      decreases |rest|
    {
      ParameterStep(rest, count);
      if rest[0] == '?' {
        PrependOne(arguments, Manual(count), ParseParameters(Trim(rest[1..]), count + 1));
        CountAppend(arguments, Manual(count));
        arguments := arguments + [Manual(count)];
        count := count + 1;
        rest := Trim(rest[1..]);
      } else if rest[0] == '(' {
        var split := SplitOnce(rest[1..], ')');
        if split.None? {
          return None, count;
        }
        var sources := ParseExpression(split.value.0);
        if sources.None? {
          return None, count;
        }
        PrependOne(arguments, Expression(sources.value), ParseParameters(Trim(split.value.1), count));
        CountAppend(arguments, Expression(sources.value));
        arguments := arguments + [Expression(sources.value)];
        rest := Trim(split.value.1);
      } else {
        return None, count;
      }
    }
    assert arguments + [] == arguments;
    return Some(arguments), count;
  }

  lemma {:induction false} CountAppend(parameters: seq<Parameter>, parameter: Parameter)
    ensures CountManual(parameters + [parameter]) == CountManual(parameters) + if parameter.Manual? then 1 else 0
  {
    if parameters == [] {
      assert [parameter][1..] == [];
    } else {
      assert (parameters + [parameter])[1..] == parameters[1..] + [parameter];
      CountAppend(parameters[1..], parameter);
    }
  }
}
