/**
 * The conditional-GET responder (`compare_etag_and_response`): a strong
 * entity tag built from the revision, `Cache-Control: must-revalidate,
 * max-age=0`, and a 304 with an empty body when the request's
 * If-None-Match carries that revision.
 *
 * Header bytes are modelled as characters; the revisions compared are
 * always decimal digits, so each character is one byte.
 */
module Util {
  import opened Wrappers
  import opened Json
  import Decimal

  const StatusOk: nat := 200
  const StatusNoContent: nat := 204
  const StatusNotModified: nat := 304
  const StatusNotFound: nat := 404

  const JsonContentType: string := "application/json"

  datatype CacheDirective = MustRevalidate | MaxAge(seconds: nat)

  datatype Body = Text(s: string) | JsonBody(value: Value)

  /** The parts of a response the handlers set. */
  datatype Response = Response(
    status: nat,
    etag: Option<string>,
    cacheControl: seq<CacheDirective>,
    contentType: Option<string>,
    body: Body)

  /** A strong entity tag as it appears in a header: the tag in double quotes. */
  function StrongTag(tag: string): (h: string)
    ensures |h| == |tag| + 2 && h[0] == '"' && h[|h| - 1] == '"' && h[1..|h| - 1] == tag
  {
    "\"" + tag + "\""
  }

  /** A weak entity tag as it appears in a header: `W/` and the quoted tag. */
  function WeakTag(tag: string): (h: string)
    ensures |h| == |tag| + 4 && h[..2] == "W/" && h[2..] == StrongTag(tag)
  {
    "W/" + StrongTag(tag)
  }

  /**
   * The If-None-Match test: a header is present, longer than two bytes, and
   * everything but its first and last byte equals the revision.
   */
  function Matched(ifNoneMatch: Option<string>, revision: string): bool {
    match ifNoneMatch
    case None => false
    case Some(t) => |t| > 2 && t[1..|t| - 1] == revision
  }

  function CompareEtagAndResponse(ifNoneMatch: Option<string>, revision: string, data: Value): (r: Response)
    ensures r.etag == Some(StrongTag(revision))
    ensures r.cacheControl == [MustRevalidate, MaxAge(0)]
    ensures r.contentType == Some(JsonContentType)
    ensures r.status == StatusNotModified <==> Matched(ifNoneMatch, revision)
    ensures r.status == StatusNotModified ==> r.body == Text("")
    ensures r.status != StatusNotModified ==> r.status == StatusOk && r.body == JsonBody(data)
  {
    var matched := Matched(ifNoneMatch, revision);
    var headers := Response(StatusOk, Some(StrongTag(revision)), [MustRevalidate, MaxAge(0)], Some(JsonContentType), Text(""));
    if matched then headers.(status := StatusNotModified) else headers.(body := JsonBody(data))
  }

  /**
   * A header matches exactly when it is the revision wrapped in one byte on
   * each side, whatever those two bytes are; so the revision must be
   * non-empty.
   */
  lemma MatchedIsWrapping(ifNoneMatch: Option<string>, revision: string)
    ensures Matched(ifNoneMatch, revision) <==>
      && ifNoneMatch.Some?
      && revision != []
      && |ifNoneMatch.value| == |revision| + 2
      && ifNoneMatch.value == [ifNoneMatch.value[0]] + revision + [ifNoneMatch.value[|revision| + 1]]
  {
    if ifNoneMatch.Some? && revision != [] && |ifNoneMatch.value| == |revision| + 2 {
      var t := ifNoneMatch.value;
      if t == [t[0]] + revision + [t[|revision| + 1]] {
        assert t[1..|t| - 1] == revision;
      }
      if t[1..|t| - 1] == revision {
        assert t == [t[0]] + t[1..|t| - 1] + [t[|t| - 1]];
      }
    }
  }

  /** Sending back the tag a response carried yields a 304 while the revision holds. */
  lemma EchoedTagIsNotModified(revision: string, data: Value, data': Value)
    requires revision != []
    ensures CompareEtagAndResponse(CompareEtagAndResponse(None, revision, data).etag, revision, data').status == StatusNotModified
  {
  }

  /**
   * For revision tokens: presenting the quoted token of revision `seen`
   * against the current revision `current` yields a 304 exactly when they are
   * the same revision, and otherwise the full payload.
   */
  lemma RevisionValidation(seen: nat, current: nat, data: Value)
    ensures var r := CompareEtagAndResponse(Some(StrongTag(Decimal.Show(seen))), Decimal.Show(current), data);
      (r.status == StatusNotModified <==> seen == current)
      && (seen != current ==> r.status == StatusOk && r.body == JsonBody(data))
  {
    Decimal.ShowInjective(seen, current);
  }

  /** Two bytes or fewer never match, not even an empty revision. */
  lemma ShortHeaderNeverMatches(t: string, revision: string)
    requires |t| <= 2
    ensures !Matched(Some(t), revision)
  {
  }

  /** A weak tag is never taken for its own strong counterpart (`W/"5"` against `5`). */
  lemma WeakTagNeverMatches(tag: string)
    ensures !Matched(Some(WeakTag(tag)), tag)
  {
  }

  /** The outer bytes are not checked: `'5'` (single quotes) matches revision `5`. */
  lemma OuterBytesIgnored(a: char, b: char, revision: string)
    requires revision != []
    ensures Matched(Some([a] + revision + [b]), revision)
  {
    var t := [a] + revision + [b];
    assert t[1..|t| - 1] == revision;
  }
}
