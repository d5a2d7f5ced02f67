/**
 * The revisioned tiddler store (`MemoryTiddlersStore`): a map from title to
 * tiddler, each tiddler carrying its own revision, plus one global revision
 * counter that every write bumps, except a write to the StoryList title.
 *
 * `StoreState` is the value view of a store (what a snapshot holds); `Put`,
 * `Delete` and `Merge` are the reference semantics of the writes on it. The
 * class `MemoryTiddlersStore` is the in-place store whose methods are proved
 * against them.
 */
module Store {
  import opened Wrappers
  import opened Json
  import Decimal

  /**
   * The title whose writes do not move the global revision. The source's
   * guard `key != X || key != X` is the same test as `key != X`.
   */
  const StoryListKey: string := "$:%2FStoryList"

  /** The global revision after one write to `key`. */
  function Bumped(revision: nat, key: string): (r: nat) {
    if key == StoryListKey then revision else revision + 1
  }

  datatype Tiddler = Tiddler(meta: Value, text: string, revision: nat)

  datatype StoreState = StoreState(tiddlers: map<string, Tiddler>, revision: nat)

  /** The store `new` falls back to when no snapshot file can be read. */
  const Empty: StoreState := StoreState(map[], 0)

  /**
   * `put_tiddler` on a value: the new state and the item revision returned.
   * An absent title is created at revision 0, a present one is replaced and
   * its revision goes up by one; the global revision goes up by one unless
   * the title is the StoryList.
   */
  function Put(s: StoreState, key: string, meta: Value, text: string): (r: (StoreState, nat))
    ensures r.0.revision == (if key == StoryListKey then s.revision else s.revision + 1)
    ensures key !in s.tiddlers ==> r.1 == 0
    ensures key in s.tiddlers ==> r.1 == s.tiddlers[key].revision + 1
    ensures r.0.tiddlers.Keys == s.tiddlers.Keys + {key}
    ensures r.0.tiddlers[key] == Tiddler(meta, text, r.1)
    ensures forall k :: k in s.tiddlers && k != key ==> r.0.tiddlers[k] == s.tiddlers[k]
  {
    var rev := if key in s.tiddlers then s.tiddlers[key].revision + 1 else 0;
    (StoreState(s.tiddlers[key := Tiddler(meta, text, rev)], Bumped(s.revision, key)), rev)
  }

  /**
   * `delete_tiddler` on a value: the title is gone afterwards, the result
   * says whether it was there, and the global revision goes up by one
   * (unless the title is the StoryList) whether or not anything was removed.
   */
  function Delete(s: StoreState, key: string): (r: (StoreState, bool))
    ensures r.0.revision == (if key == StoryListKey then s.revision else s.revision + 1)
    ensures r.1 <==> key in s.tiddlers
    ensures r.0.tiddlers.Keys == s.tiddlers.Keys - {key}
    ensures forall k :: k in r.0.tiddlers ==> r.0.tiddlers[k] == s.tiddlers[k]
  {
    (StoreState(s.tiddlers - {key}, Bumped(s.revision, key)), key in s.tiddlers)
  }

  /**
   * The startup merge: a fetched snapshot replaces the local store as a
   * whole exactly when its global revision is strictly greater.
   */
  function Merge(local: StoreState, remote: StoreState): (r: StoreState)
    ensures r == remote || r == local
    ensures r == remote <==> local.revision < remote.revision || remote == local
    ensures r.revision >= local.revision && r.revision >= remote.revision
  {
    if local.revision < remote.revision then remote else local
  }

  /**
   * The metadata `get_tiddler` hands out: for an object, the body is set
   * under "text" and every other field is kept; any other value is
   * returned as stored.
   */
  function WithText(meta: Value, text: string): (r: Value)
    ensures meta.Object? <==> r.Object?
    ensures meta.Object? ==> r.fields.Keys == meta.fields.Keys + {"text"}
    ensures meta.Object? ==> r.fields["text"] == Str(text)
    ensures meta.Object? ==> forall k :: k in meta.fields && k != "text" ==> r.fields[k] == meta.fields[k]
    ensures !meta.Object? ==> r == meta
  {
    match meta
    case Object(fields) => Object(fields["text" := Str(text)])
    case _ => meta
  }

  /** `ks` lists every title of `keys` exactly once. */
  ghost predicate Enumerates(ks: seq<string>, keys: set<string>) {
    && (forall i, j :: 0 <= i < j < |ks| ==> ks[i] != ks[j])
    && (forall k :: k in ks <==> k in keys)
  }

  /** `items[i]` is the metadata of the tiddler titled `ks[i]`. */
  ghost predicate MetasOf(items: seq<Value>, ks: seq<string>, m: map<string, Tiddler>) {
    && |items| == |ks|
    && forall i :: 0 <= i < |ks| ==> ks[i] in m && items[i] == m[ks[i]].meta
  }

  lemma {:induction false} EnumerationSize(ks: seq<string>, keys: set<string>)
    requires Enumerates(ks, keys)
    ensures |ks| == |keys|
  {
    if ks != [] {
      var rest := ks[1..];
      forall k ensures k in rest <==> k in keys - {ks[0]} {
        if k in rest {
          var i :| 0 <= i < |rest| && rest[i] == k;
          assert ks[i + 1] == k;
        }
        if k in keys - {ks[0]} {
          var i :| 0 <= i < |ks| && ks[i] == k;
          assert rest[i - 1] == k;
        }
      }
      EnumerationSize(rest, keys - {ks[0]});
    }
  }

  class MemoryTiddlersStore {
    var tiddlers: map<string, Tiddler>
    var revision: nat

    function State(): StoreState
      reads this
    {
      StoreState(tiddlers, revision)
    }

    /** The empty store of `new` (reading ./data.json is not part of this model). */
    constructor ()
      ensures State() == Empty
    {
      tiddlers := map[];
      revision := 0;
    }

    /**
     * The stored tiddler's metadata with its body merged in, and its item
     * revision as a decimal token; `None` exactly when the title is absent.
     */
    function GetTiddler(key: string): (r: Option<(Value, string)>)
      reads this
      ensures r.None? <==> key !in tiddlers
      ensures r.Some? ==> r.value.0 == WithText(tiddlers[key].meta, tiddlers[key].text)
      ensures r.Some? ==> r.value.1 == Decimal.Show(tiddlers[key].revision)
      ensures r.Some? ==> Decimal.Parse(r.value.1) == Some(tiddlers[key].revision)
    {
      if key in tiddlers then
        var t := tiddlers[key];
        Decimal.ParseShow(t.revision);
        Some((WithText(t.meta, t.text), Decimal.Show(t.revision)))
      else
        None
    }

    /** One metadata value per stored tiddler, in some order, bodies left out. */
    method AllTiddlers() returns (v: Value)
      ensures v.Array? && |v.items| == |tiddlers|
      ensures exists ks :: Enumerates(ks, tiddlers.Keys) && MetasOf(v.items, ks, tiddlers)
    {
      var items: seq<Value> := [];
      ghost var order: seq<string> := [];
      var rest := tiddlers.Keys;
      while rest != {}
        invariant rest <= tiddlers.Keys
        invariant Enumerates(order, tiddlers.Keys - rest)
        invariant MetasOf(items, order, tiddlers)
        decreases |rest|
      {
        var k :| k in rest;
        items := items + [tiddlers[k].meta];
        order := order + [k];
        rest := rest - {k};
      }
      EnumerationSize(order, tiddlers.Keys);
      v := Array(items);
    }

    method DeleteTiddler(key: string) returns (res: bool)
      modifies this
      ensures (State(), res) == Delete(old(State()), key)
      ensures GetTiddler(key).None?
    {
      if key != StoryListKey || key != StoryListKey {
        revision := revision + 1;
      }
      res := key in tiddlers;
      tiddlers := tiddlers - {key};
    }

    method PutTiddler(key: string, meta: Value, text: string) returns (rev: nat)
      modifies this
      ensures (State(), rev) == Put(old(State()), key, meta, text)
      ensures GetTiddler(key) == Some((WithText(meta, text), Decimal.Show(rev)))
    {
      if key != StoryListKey || key != StoryListKey {
        revision := revision + 1;
      }
      if key in tiddlers {
        var t := tiddlers[key];
        rev := t.revision + 1;
        tiddlers := tiddlers[key := t.(meta := meta, text := text, revision := rev)];
      } else {
        tiddlers := tiddlers[key := Tiddler(meta, text, 0)];
        rev := 0;
      }
    }

    /** The global revision as the token used for the collection's ETag. */
    function GlobalRevision(): (s: string)
      reads this
      ensures Decimal.Parse(s) == Some(revision)
    {
      Decimal.ParseShow(revision);
      Decimal.Show(revision)
    }

    /** The comparable ordinal; its decimal form is `GlobalRevision()`. */
    function GlobalRevisionNum(): (n: nat)
      reads this
      ensures Decimal.Show(n) == GlobalRevision()
    {
      revision
    }
  }

  // Sequences of writes

  datatype Op = PutOp(key: string, meta: Value, text: string) | DeleteOp(key: string)

  function Apply(s: StoreState, op: Op): (r: StoreState) {
    match op
    case PutOp(k, m, t) => Put(s, k, m, t).0
    case DeleteOp(k) => Delete(s, k).0
  }

  function ApplyAll(s: StoreState, ops: seq<Op>): (r: StoreState)
    decreases |ops|
  {
    if ops == [] then s else ApplyAll(Apply(s, ops[0]), ops[1..])
  }

  /** How many of `ops` are puts to title `k`. */
  function PutsTo(ops: seq<Op>, k: string): (n: nat)
    decreases |ops|
  {
    if ops == [] then 0
    else (if ops[0].PutOp? && ops[0].key == k then 1 else 0) + PutsTo(ops[1..], k)
  }

  /** How many of `ops` write a title other than the StoryList. */
  function CountedWrites(ops: seq<Op>): (n: nat)
    decreases |ops|
  {
    if ops == [] then 0
    else (if ops[0].key != StoryListKey then 1 else 0) + CountedWrites(ops[1..])
  }

  predicate NeverDeletes(ops: seq<Op>, k: string) {
    forall i :: 0 <= i < |ops| ==> ops[i] != DeleteOp(k)
  }

  /**
   * Every write moves the global revision by exactly one, except writes to
   * the StoryList, which leave it alone; so it never goes down.
   */
  lemma {:induction false} RevisionCountsWrites(s: StoreState, ops: seq<Op>)
    ensures ApplyAll(s, ops).revision == s.revision + CountedWrites(ops)
    ensures (forall i :: 0 <= i < |ops| ==> ops[i].key != StoryListKey) ==> ApplyAll(s, ops).revision == s.revision + |ops|
    decreases |ops|
  {
    if ops != [] {
      RevisionCountsWrites(Apply(s, ops[0]), ops[1..]);
    }
  }

  /**
   * While a title is not deleted, its item revision goes up by one per put
   * to it, whatever is done to other titles in between.
   */
  lemma {:induction false} ItemRevisionCountsPuts(s: StoreState, ops: seq<Op>, k: string)
    requires k in s.tiddlers && NeverDeletes(ops, k)
    ensures k in ApplyAll(s, ops).tiddlers
    ensures ApplyAll(s, ops).tiddlers[k].revision == s.tiddlers[k].revision + PutsTo(ops, k)
    decreases |ops|
  {
    if ops != [] {
      assert ops[0] != DeleteOp(k);
      ItemRevisionCountsPuts(Apply(s, ops[0]), ops[1..], k);
    }
  }

  /**
   * A title that is absent is created at revision 0 by its first put, so
   * after n puts (and no delete) its revision is n - 1.
   */
  lemma {:induction false} FirstPutStartsAtZero(s: StoreState, ops: seq<Op>, k: string)
    requires k !in s.tiddlers && NeverDeletes(ops, k) && PutsTo(ops, k) > 0
    ensures k in ApplyAll(s, ops).tiddlers
    ensures ApplyAll(s, ops).tiddlers[k].revision == PutsTo(ops, k) - 1
    decreases |ops|
  {
    assert ops != [];
    var s' := Apply(s, ops[0]);
    assert ops[0] != DeleteOp(k);
    if ops[0].PutOp? && ops[0].key == k {
      ItemRevisionCountsPuts(s', ops[1..], k);
    } else {
      FirstPutStartsAtZero(s', ops[1..], k);
    }
  }

  /** Writes to other titles leave a tiddler exactly as it was. */
  lemma {:induction false} OtherTitlesUnchanged(s: StoreState, ops: seq<Op>, k: string)
    requires forall i :: 0 <= i < |ops| ==> ops[i].key != k
    ensures k in ApplyAll(s, ops).tiddlers <==> k in s.tiddlers
    ensures k in s.tiddlers ==> ApplyAll(s, ops).tiddlers[k] == s.tiddlers[k]
    decreases |ops|
  {
    if ops != [] {
      assert ops[0].key != k;
      OtherTitlesUnchanged(Apply(s, ops[0]), ops[1..], k);
    }
  }
}
