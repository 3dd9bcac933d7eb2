/** `createResponseSummary`: a bounded preview of a tool result for the log.
    Strings are cut at 200 characters; anything else is serialised and cut at
    300; a value that cannot be serialised becomes a fixed sentinel. */
module ResponseSummary {
  import opened Wrappers
  import opened Values

  const StringLimit: nat := 200
  const JsonLimit: nat := 300
  const Marker: string := "... (truncated)"
  const Unserializable: string := "[Unserializable content]"

  /** Keep the first `limit` characters, adding the marker only when
      something was actually cut off. */
  function Truncate(s: string, limit: nat): (r: string)
    ensures |s| <= limit ==> r == s
    ensures |s| > limit ==> |r| == limit + |Marker| && r[..limit] == s[..limit] && r[limit..] == Marker
  {
    var head := if |s| <= limit then s else s[..limit];
    if |s| > limit then head + Marker else head
  }

  /** Truncating twice at the same limit changes nothing. */
  lemma TruncateIdempotent(s: string, limit: nat)
    ensures Truncate(Truncate(s, limit), limit) == Truncate(s, limit)
  {
  }

  /** `createResponseSummary(content)`. `stringify` is `JSON.stringify`, with
      `None` standing for both a throw and an `undefined` result (calling
      `substring` on `undefined` throws into the same catch). It never fails. */
  function Summarize(content: Value, stringify: Value -> Option<string>): (r: string)
    ensures |r| <= JsonLimit + |Marker|
    ensures content.Str? ==> |r| <= StringLimit + |Marker|
  {
    if content.Str? then Truncate(content.s, StringLimit)
    else match stringify(content)
      case None => Unserializable
      case Some(json) => Truncate(json, JsonLimit)
  }

  /** The string case: short strings are kept, long ones become their first
      200 characters and the marker, 215 characters in all. */
  lemma SummaryOfString(s: string, stringify: Value -> Option<string>)
    ensures |s| <= 200 ==> Summarize(Str(s), stringify) == s
    ensures |s| > 200 ==> Summarize(Str(s), stringify) == s[..200] + "... (truncated)"
    ensures |s| > 200 ==> |Summarize(Str(s), stringify)| == 215
  {
  }

  /** The non-string case: the JSON text cut at 300 characters, or the sentinel. */
  lemma SummaryOfOther(content: Value, stringify: Value -> Option<string>)
    requires !content.Str?
    ensures stringify(content).None? ==> Summarize(content, stringify) == "[Unserializable content]"
    ensures stringify(content).Some? && |stringify(content).value| <= 300 ==>
      Summarize(content, stringify) == stringify(content).value
    ensures stringify(content).Some? && |stringify(content).value| > 300 ==>
      Summarize(content, stringify) == stringify(content).value[..300] + "... (truncated)"
  {
  }
}
