/**
 * The request handlers of the wiki server with the HTTP framework taken
 * away: the basic-auth check, the normalisation of a PUT body into stored
 * metadata and text, the ETag a PUT answers with, and what the GET, PUT and
 * DELETE handlers do to the store and answer.
 */
module Handlers {
  import opened Wrappers
  import opened Json
  import Decimal
  import opened Store
  import opened Util

  // Basic authentication

  /**
   * `ok_validator`: the user id must be the configured name, and the
   * password (the user id itself when none is given) the configured one.
   */
  function OkValidator(userId: string, password: Option<string>, userName: string, userPassword: string): (ok: bool)
    ensures password.Some? ==> (ok <==> userId == userName && password.value == userPassword)
    ensures password.None? ==> (ok <==> userId == userName && userName == userPassword)
  {
    var supplied := match password case Some(p) => p case None => userId;
    userId == userName && supplied == userPassword
  }

  // PUT body normalisation

  /** The entries of an object-valued "fields", none otherwise. */
  function LiftedFields(m: map<string, Value>): (lifted: map<string, Value>) {
    if "fields" in m && m["fields"].Object? then m["fields"].fields else map[]
  }

  /**
   * What the PUT handler stores for a parsed body: for an object, "bag" is
   * set to "bag", "revision" and "fields" are dropped, the entries of an
   * object-valued "fields" are lifted to the top level, and "text" is taken
   * out as the body when it is a string. Any other value is stored as it
   * came, with an empty body.
   */
  function Normalize(body: Value): (r: (Value, string))
    ensures !body.Object? ==> r == (body, "")
    ensures body.Object? ==> r.0.Object? && "text" !in r.0.fields
  {
    match body
    case Object(m) =>
      var fields := m["bag" := Str("bag")] - {"revision"};
      var lifted := (fields - {"fields"}) + LiftedFields(m);
      var text := if "text" in lifted && lifted["text"].Str? then lifted["text"].s else "";
      (Object(lifted - {"text"}), text)
    case _ => (body, "")
  }

  /**
   * Field by field: a lifted entry wins over everything, then the "bag"
   * marker, then the body's own entry; "revision" and "fields" survive only
   * when lifted, "text" never; the text comes from the lifted "text" if
   * there is one, else from the top-level one, and is empty unless that
   * value is a string.
   */
  lemma NormalizeObject(m: map<string, Value>, k: string)
    ensures var meta := Normalize(Object(m)).0.fields;
      var lifted := LiftedFields(m);
      && (k in meta <==> k != "text" && (k in lifted || k == "bag" || (k in m && k != "revision" && k != "fields")))
      && (k in meta ==> meta[k] == if k in lifted then lifted[k] else if k == "bag" then Str("bag") else m[k])
    ensures var text := Normalize(Object(m)).1;
      var lifted := LiftedFields(m);
      text == if "text" in lifted then (if lifted["text"].Str? then lifted["text"].s else "")
              else if "text" in m && m["text"].Str? then m["text"].s else ""
  {
  }

  /** The `for (k, v) in sub_field` loop: every entry inserted, overwriting. */
  method InsertAll<V>(m: map<string, V>, entries: map<string, V>) returns (r: map<string, V>)
    ensures r.Keys == m.Keys + entries.Keys
    ensures forall k :: k in entries ==> r[k] == entries[k]
    ensures forall k :: k in m && k !in entries ==> r[k] == m[k]
  {
    r := m;
    var rest := entries.Keys;
    while rest != {}
      invariant rest <= entries.Keys
      invariant r.Keys == m.Keys + (entries.Keys - rest)
      invariant forall k :: k in entries && k !in rest ==> r[k] == entries[k]
      invariant forall k :: k in m && (k !in entries || k in rest) ==> r[k] == m[k]
      decreases rest
    {
      var k :| k in rest;
      r := r[k := entries[k]];
      rest := rest - {k};
    }
  }

  /** The in-place rewrite of the PUT handler, one map update at a time. */
  method NormalizeBody(body: Value) returns (meta: Value, text: string)
    ensures (meta, text) == Normalize(body)
  {
    meta := body;
    text := "";
    if body.Object? {
      var m := body.fields;
      m := m["bag" := Str("bag")];
      m := m - {"revision"};
      if "fields" in m {
        var sub := m["fields"];
        m := m - {"fields"};
        if sub.Object? {
          m := InsertAll(m, sub.fields);
        }
      }
      ghost var lifted := (body.fields["bag" := Str("bag")] - {"revision"} - {"fields"}) + LiftedFields(body.fields);
      assert m == lifted;
      ghost var expected := if "text" in lifted && lifted["text"].Str? then lifted["text"].s else "";
      if "text" in m {
        var t := m["text"];
        m := m - {"text"};
        if t.Str? {
          text := t.s;
        }
      }
      assert text == expected;
      assert m == lifted - {"text"};
      meta := Object(m);
    }
  }

  // The ETag of a PUT response

  const PutETagPrefix: string := "\"a/"
  const PutETagSuffix: string := ":\""

  /** `"a/<title>/<rev>:"` */
  function PutETag(title: string, rev: nat): (h: string) {
    PutETagPrefix + title + "/" + Decimal.Show(rev) + PutETagSuffix
  }

  /** The position of the last '/' in `s`, if any. */
  function LastSlash(s: string): (r: Option<nat>)
    ensures r.Some? ==> r.value < |s| && s[r.value] == '/' && '/' !in s[r.value + 1..]
    ensures r.None? ==> '/' !in s
    decreases |s|
  {
    if s == [] then None
    else if s[|s| - 1] == '/' then Some(|s| - 1)
    else
      var r := LastSlash(s[..|s| - 1]);
      assert s == s[..|s| - 1] + [s[|s| - 1]];
      r
  }

  /** Reads the title and item revision back out of a PUT ETag. */
  function ParsePutETag(h: string): (r: Option<(string, nat)>) {
    if |h| < |PutETagPrefix| + |PutETagSuffix| || h[..|PutETagPrefix|] != PutETagPrefix || h[|h| - |PutETagSuffix|..] != PutETagSuffix then
      None
    else
      var inner := h[|PutETagPrefix|..|h| - |PutETagSuffix|];
      match LastSlash(inner)
      case None => None
      case Some(i) =>
        match Decimal.Parse(inner[i + 1..])
        case None => None
        case Some(rev) => Some((inner[..i], rev))
  }

  /** The ETag names the title and the revision put, and both can be read back. */
  lemma {:induction false} PutETagRoundTrip(title: string, rev: nat)
    ensures ParsePutETag(PutETag(title, rev)) == Some((title, rev))
  {
    var digits := Decimal.Show(rev);
    var h := PutETag(title, rev);
    var inner := title + "/" + digits;
    assert h == PutETagPrefix + inner + PutETagSuffix;
    assert h[..|PutETagPrefix|] == PutETagPrefix;
    assert h[|h| - |PutETagSuffix|..] == PutETagSuffix;
    assert h[|PutETagPrefix|..|h| - |PutETagSuffix|] == inner;
    forall i | 0 <= i < |digits| ensures digits[i] != '/' {
      assert Decimal.IsDigit(digits[i]);
    }
    LastSlashAfter(title, digits);
    assert inner[|title| + 1..] == digits;
    assert inner[..|title|] == title;
    Decimal.ParseShow(rev);
  }

  /** The slash before a slash-free tail is the last one. */
  lemma {:induction false} LastSlashAfter(title: string, tail: string)
    requires '/' !in tail
    ensures LastSlash(title + "/" + tail) == Some(|title|)
    decreases |tail|
  {
    var s := title + "/" + tail;
    if tail != [] {
      assert s[|s| - 1] == tail[|tail| - 1];
      assert s[..|s| - 1] == title + "/" + tail[..|tail| - 1];
      LastSlashAfter(title, tail[..|tail| - 1]);
    }
  }

  /**
   * A client that echoes a PUT ETag in If-None-Match never gets a 304 from
   * the GET handler: the GET tag is the bare decimal revision.
   */
  lemma PutETagNeverValidatesGet(title: string, rev: nat, current: nat)
    ensures !Matched(Some(PutETag(title, rev)), Decimal.Show(current))
  {
    var h := PutETag(title, rev);
    var digits := Decimal.Show(current);
    var inner := h[1..|h| - 1];
    assert inner[1] == h[2] == '/';
    if |digits| >= 2 {
      assert Decimal.IsDigit(digits[1]);
      assert inner[1] != digits[1];
    }
  }

  // Handlers

  datatype PutReply = Replied(response: Response) | BodyNotJson

  function NoContent(etag: Option<string>): (r: Response)
    ensures r.status == StatusNoContent && r.body == Text("") && r.etag == etag
  {
    Response(StatusNoContent, etag, [], None, Text(""))
  }

  /**
   * `PUT /recipes/a/tiddlers/{title}`: a body that is not JSON is refused
   * before the store is touched; otherwise the normalised body is put and
   * the reply is a 204 whose ETag carries the title and new item revision.
   */
  method HandlePut(store: MemoryTiddlersStore, title: string, body: Option<Value>) returns (r: PutReply)
    modifies store
    ensures body.None? ==> r == BodyNotJson && store.State() == old(store.State())
    ensures body.Some? ==>
      var (meta, text) := Normalize(body.value);
      var (after, rev) := Put(old(store.State()), title, meta, text);
      store.State() == after && r == Replied(NoContent(Some(PutETag(title, rev))))
    ensures r.Replied? ==>
      && title in store.tiddlers
      && ParsePutETag(r.response.etag.value) == Some((title, store.tiddlers[title].revision))
  {
    if body.None? {
      return BodyNotJson;
    }
    var meta, text := NormalizeBody(body.value);
    var rev := store.PutTiddler(title, meta, text);
    PutETagRoundTrip(title, rev);
    r := Replied(NoContent(Some(PutETag(title, rev))));
  }

  /**
   * `DELETE /bags/a/tiddlers/{title}` and `DELETE /bags/bag/tiddlers/{title}`:
   * the title is deleted and the answer is 204 whether or not it existed.
   */
  method HandleDelete(store: MemoryTiddlersStore, title: string) returns (r: Response)
    modifies store
    ensures store.State() == Delete(old(store.State()), title).0
    ensures r == NoContent(None)
  {
    var _ := store.DeleteTiddler(title);
    r := NoContent(None);
  }

  /**
   * `GET /recipes/a/tiddlers/{title}`: 404 with an empty body for an absent
   * title, otherwise the conditional response keyed on the item revision.
   */
  function HandleGet(store: MemoryTiddlersStore, title: string, ifNoneMatch: Option<string>): (r: Response)
    reads store
    ensures title !in store.tiddlers ==> r == Response(StatusNotFound, None, [], None, Text(""))
    ensures title in store.tiddlers ==>
      var t := store.tiddlers[title];
      r == CompareEtagAndResponse(ifNoneMatch, Decimal.Show(t.revision), WithText(t.meta, t.text))
    ensures title in store.tiddlers ==>
      var t := store.tiddlers[title];
      && r.etag == Some(StrongTag(Decimal.Show(t.revision)))
      && (r.status == StatusNotModified <==> Matched(ifNoneMatch, Decimal.Show(t.revision)))
      && (r.status == StatusNotModified ==> r.body == Text(""))
      && (r.status != StatusNotModified ==> r.status == StatusOk && r.body == JsonBody(WithText(t.meta, t.text)))
  {
    match store.GetTiddler(title)
    case Some((meta, rev)) =>
      CompareEtagAndResponse(ifNoneMatch, rev, meta)
    case None => Response(StatusNotFound, None, [], None, Text(""))
  }

  /**
   * `GET /recipes/a/tiddlers.json`: the conditional response keyed on the
   * global revision, whose payload lists every tiddler's metadata once.
   */
  method HandleList(store: MemoryTiddlersStore, ifNoneMatch: Option<string>) returns (r: Response)
    ensures r.etag == Some(StrongTag(Decimal.Show(store.revision)))
    ensures r.cacheControl == [MustRevalidate, MaxAge(0)] && r.contentType == Some(JsonContentType)
    ensures r.status == StatusNotModified <==> Matched(ifNoneMatch, Decimal.Show(store.revision))
    ensures r.status == StatusNotModified ==> r.body == Text("")
    ensures r.status != StatusNotModified ==>
      && r.status == StatusOk
      && r.body.JsonBody? && r.body.value.Array?
      && exists ks :: Enumerates(ks, store.tiddlers.Keys) && MetasOf(r.body.value.items, ks, store.tiddlers)
  {
    var revision := store.GlobalRevision();
    var all := store.AllTiddlers();
    r := CompareEtagAndResponse(ifNoneMatch, revision, all);
  }

  // A worked exchange

  /**
   * Putting `{"meta":"x","fields":{"a":1},"text":"hello"}` as "foo" into the
   * empty store: item revision 0, ETag `"a/foo/0:"`, global revision 1, and
   * reading it back gives the lifted field, the "bag" marker and the body;
   * the same put again gives item revision 1 and global revision 2.
   */
  lemma PutTwiceScenario()
    ensures
      var body := Object(map["meta" := Str("x"), "fields" := Object(map["a" := Scalar("1")]), "text" := Str("hello")]);
      var (meta, text) := Normalize(body);
      var (first, rev1) := Put(Empty, "foo", meta, text);
      var (second, rev2) := Put(first, "foo", meta, text);
      && meta == Object(map["meta" := Str("x"), "bag" := Str("bag"), "a" := Scalar("1")])
      && text == "hello"
      && rev1 == 0 && first.revision == 1
      && PutETag("foo", rev1) == "\"a/foo/0:\""
      && WithText(first.tiddlers["foo"].meta, first.tiddlers["foo"].text)
         == Object(map["meta" := Str("x"), "bag" := Str("bag"), "a" := Scalar("1"), "text" := Str("hello")])
      && rev2 == 1 && second.revision == 2
  {
    var fields := map["meta" := Str("x"), "fields" := Object(map["a" := Scalar("1")]), "text" := Str("hello")];
    var stored := map["meta" := Str("x"), "bag" := Str("bag"), "a" := Scalar("1")];
    assert Normalize(Object(fields)).0 == Object(stored);
    assert Decimal.Show(0) == "0";
  }
}
