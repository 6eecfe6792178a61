/** Content parts and reasoning-replay items shared by the encoders and the response accumulator. */
module Replay {
  import opened Wrappers
  import opened Json
  import opened History

  datatype Part = TextPart(text: string) | ImagePart(image: Image)

  datatype Content = Plain(text: string) | Parts(parts: seq<Part>)

  function ImageParts(images: seq<Image>): seq<Part> {
    seq(|images|, k requires 0 <= k < |images| => ImagePart(images[k]))
  }

  /** User content: plain text where the format allows it, otherwise text (unless redundant) then images. */
  function UserContent(content: string, images: seq<Image>, format: ApiFormat): Content {
    if images == [] && !format.Messages? then Plain(content)
    else Parts((if content != "" || images == [] then [TextPart(content)] else []) + ImageParts(images))
  }

  function ParseFormat(value: Json): Option<ApiFormat> {
    match value
    case Str(text) =>
      if text == ChatCompletions.AsStr() then Some(ChatCompletions)
      else if text == Messages.AsStr() then Some(Messages)
      else if text == Responses.AsStr() then Some(Responses)
      else None
    case _ => None
  }

  predicate ReplayItemOk(item: Json, format: ApiFormat) {
    match format
    case Messages =>
      if item.At("type") == Str("thinking") then item.At("thinking").Str? && item.At("signature").IsNonEmptyString()
      else item.At("type") == Str("redacted_thinking") && item.At("data").IsNonEmptyString()
    case Responses =>
      && item.At("type") == Str("reasoning")
      && item.At("id").IsNonEmptyString()
      && item.At("summary").Arr?
      && (item.Get("content").None? || item.Get("content").value.Arr?)
      && (item.Get("encrypted_content").None? || item.Get("encrypted_content").value.Null?
          || item.Get("encrypted_content").value.Str?)
    case ChatCompletions => false
  }

  /** The items of a replay of the given format: at least one, and each complete. */
  function StrictReplayItems(replay: Json, format: ApiFormat): Result<seq<Json>, ErrorKind> {
    var items := replay.At("items");
    if replay.At("api_format") != Str(format.AsStr()) || !items.Arr? || items.items == [] then Err(InvalidParameters)
    else if forall k :: 0 <= k < |items.items| ==> ReplayItemOk(items.items[k], format) then Ok(items.items)
    else Err(InvalidParameters)
  }

  /** The replay items to send: all of them for the format that produced them, none for another. */
  function ReplayItems(replay: Option<Json>, format: ApiFormat): Result<seq<Json>, ErrorKind> {
    match replay
    case None => Ok([])
    case Some(value) =>
      var source := ParseFormat(value.At("api_format"));
      if source.None? then Err(InvalidParameters)
      else
        var items :- StrictReplayItems(value, source.value);
        Ok(if source.value == format then items else [])
  }
}
