/** The standard string operations that parsers are made of, each as a plain function of the text. */
module Strings {
  import opened Wrappers
  import opened Text

  predicate Whole(text: string) {
    forall k :: 0 <= k < |text| ==> !IsWhitespace(text[k])
  }

  function TrimStart(text: string): (rest: string)
    ensures |rest| <= |text| && rest == text[|text| - |rest|..]
  {
    if text != "" && IsWhitespace(text[0]) then TrimStart(text[1..]) else text
  }

  function TrimEnd(text: string): (rest: string)
    ensures |rest| <= |text| && rest == text[..|rest|]
  {
    if text != "" && IsWhitespace(text[|text| - 1]) then TrimEnd(text[..|text| - 1]) else text
  }

  /** `str::trim` */
  function Trim(text: string): (rest: string)
    ensures |rest| <= |text| && forall c :: c in rest ==> c in text
  {
    TrimEnd(TrimStart(text))
  }

  lemma TrimWhole(text: string)
    requires Whole(text)
    ensures Trim(text) == text
  {
  }

  /** `str::split_once` at a character. */
  function SplitOnce(text: string, c: char): (parts: Option<(string, string)>)
    ensures parts.None? <==> c !in text
    ensures parts.Some? ==> text == parts.value.0 + [c] + parts.value.1 && c !in parts.value.0
  {
    if text == "" then None
    else if text[0] == c then Some(("", text[1..]))
    else
      match SplitOnce(text[1..], c)
      case None => None
      case Some((before, after)) => Some(([text[0]] + before, after))
  }

  lemma {:induction false} SplitOnceAt(before: string, c: char, after: string)
    requires c !in before
    ensures SplitOnce(before + [c] + after, c) == Some((before, after))
  {
    var text := before + [c] + after;
    if before == "" {
      assert text[1..] == after;
    } else {
      assert text[1..] == before[1..] + [c] + after;
      SplitOnceAt(before[1..], c, after);
      assert [text[0]] + before[1..] == before;
    }
  }

  /** `str::split` at a character: always at least one part. */
  function SplitAll(text: string, c: char): (parts: seq<string>)
    ensures parts != []
    decreases |text|
  {
    match SplitOnce(text, c)
    case None => [text]
    case Some((before, after)) => [before] + SplitAll(after, c)
  }

  function Join(parts: seq<string>, c: char): string
    requires parts != []
  {
    if |parts| == 1 then parts[0] else parts[0] + [c] + Join(parts[1..], c)
  }

  lemma {:induction false} JoinSplits(parts: seq<string>, c: char)
    requires parts != [] && forall k :: 0 <= k < |parts| ==> c !in parts[k]
    ensures SplitAll(Join(parts, c), c) == parts
  {
    if |parts| > 1 {
      SplitOnceAt(parts[0], c, Join(parts[1..], c));
      JoinSplits(parts[1..], c);
    }
  }

  /** `str::split_once` at white space. */
  function SplitWhitespace(text: string): (parts: Option<(string, string)>)
    ensures parts.None? <==> Whole(text)
    ensures parts.Some? ==> Whole(parts.value.0) && |parts.value.0| + 1 + |parts.value.1| == |text|
    ensures parts.Some? ==> IsWhitespace(text[|parts.value.0|])
    ensures parts.Some? ==> parts.value.0 == text[..|parts.value.0|] && parts.value.1 == text[|parts.value.0| + 1..]
  {
    if text == "" then None
    else if IsWhitespace(text[0]) then Some(("", text[1..]))
    else
      match SplitWhitespace(text[1..])
      case None => None
      case Some((before, after)) => Some(([text[0]] + before, after))
  }

  lemma {:induction false} SplitWhitespaceAt(before: string, after: string)
    requires Whole(before)
    ensures SplitWhitespace(before + " " + after) == Some((before, after))
  {
    var text := before + " " + after;
    if before == "" {
      assert text[1..] == after;
    } else {
      assert text[1..] == before[1..] + " " + after;
      SplitWhitespaceAt(before[1..], after);
      assert [text[0]] + before[1..] == before;
    }
  }

  /** `str::split_whitespace` */
  function Words(text: string): seq<string>
    decreases |text|
  {
    var rest := TrimStart(text);
    if rest == "" then []
    else
      match SplitWhitespace(rest)
      case None => [rest]
      case Some((word, after)) => [word] + Words(after)
  }

  lemma SliceWithout(text: string, i: nat, j: nat, c: char)
    requires i <= j <= |text| && c !in text
    ensures c !in text[i..j]
  {
  }

  /** A first word is not empty, and neither it nor what follows holds a character that the text does not. */
  lemma FirstWord(text: string, c: char)
    requires c !in text && text != "" && !IsWhitespace(text[0])
    ensures var split := SplitWhitespace(text);
            split.Some? ==> split.value.0 != "" && c !in split.value.0 && c !in split.value.1
  {
    hide SplitWhitespace;
    hide IsWhitespace;
    var split := SplitWhitespace(text);
    if split.Some? {
      SliceWithout(text, 0, |split.value.0|, c);
      SliceWithout(text, |split.value.0| + 1, |text|, c);
    }
  }

  /** Words are nonempty and hold characters of the text that are not white space. */
  lemma {:induction false} WordsWithin(text: string, c: char)
    requires c !in text
    ensures forall k :: 0 <= k < |Words(text)| ==> Words(text)[k] != "" && Whole(Words(text)[k]) && c !in Words(text)[k]
    decreases |text|
  {
    hide TrimStart;
    hide SplitWhitespace;
    hide IsWhitespace;
    hide Whole;
    var rest := TrimStart(text);
    TrimStartTrims(text);
    SliceWithout(text, |text| - |rest|, |text|, c);
    if rest != "" {
      FirstWord(rest, c);
      var split := SplitWhitespace(rest);
      if split.Some? {
        WordsWithin(split.value.1, c);
      }
    }
  }

  lemma {:induction false} TrimStartTrims(text: string)
    ensures TrimStart(text) != "" ==> !IsWhitespace(TrimStart(text)[0])
  {
    if text != "" && IsWhitespace(text[0]) {
      TrimStartTrims(text[1..]);
    }
  }

  lemma WordsCons(word: string, rest: string)
    requires word != "" && Whole(word)
    ensures Words(word + " " + rest) == [word] + Words(rest)
  {
    var text := word + " " + rest;
    assert text[0] == word[0];
    SplitWhitespaceAt(word, rest);
  }

  lemma WordsOne(word: string)
    requires word != "" && Whole(word)
    ensures Words(word) == [word]
  {
  }

  /** `str::split_once` at a string. */
  function SplitOnceText(text: string, separator: string): (parts: Option<(string, string)>)
    requires separator != ""
    ensures parts.Some? ==> text == parts.value.0 + separator + parts.value.1
  {
    if |text| < |separator| then None
    else if text[..|separator|] == separator then Some(("", text[|separator|..]))
    else
      match SplitOnceText(text[1..], separator)
      case None => None
      case Some((before, after)) => Some(([text[0]] + before, after))
  }

  lemma {:induction false} SplitOnceTextAt(before: string, separator: string, after: string)
    requires separator != "" && separator[0] !in before
    ensures SplitOnceText(before + separator + after, separator) == Some((before, after))
  {
    var text := before + separator + after;
    if before == "" {
      assert text == separator + after;
    } else {
      assert text[0] == before[0];
      assert text[..|separator|][0] == before[0];
      assert text[1..] == before[1..] + separator + after;
      SplitOnceTextAt(before[1..], separator, after);
      assert [text[0]] + before[1..] == before;
    }
  }

  function StripPrefix(text: string, prefix: string): Option<string> {
    if |prefix| <= |text| && text[..|prefix|] == prefix then Some(text[|prefix|..]) else None
  }

  lemma StripPrefixOf(prefix: string, rest: string)
    ensures StripPrefix(prefix + rest, prefix) == Some(rest)
  {
  }

  function StripSuffix(text: string, c: char): Option<string> {
    if text != "" && text[|text| - 1] == c then Some(text[..|text| - 1]) else None
  }
}
