# riddly core in Dafny

A verified model of the core of riddly, a single-process TiddlyWeb-style
server for TiddlyWiki. It covers three parts:

- the revisioned tiddler store (`MemoryTiddlersStore`). It maps titles to tiddlers. Each tiddler has metadata, a text body and its own revision. A global revision counter moves on every write.
- the conditional-GET responder. It compares `If-None-Match` with the revision and answers either 304 or the payload, always with a strong `ETag` and `Cache-Control: must-revalidate, max-age=0`.
- the decision logic of the HTTP handlers and the gist synchronisation:
  - the basic-auth check;
  - the normalisation of a PUT body;
  - the PUT `ETag`;
  - what GET, PUT, DELETE and `/recipes/backup` do;
  - the startup merge with the fetched snapshot;
  - the periodic push whenever the global revision has moved.

Files, one module each:

- `wrappers.dfy`: `Option`.
- `json.dfy`: an abstract JSON `Value`. Objects and strings are inspected. Arrays are built. Other literals are kept opaque.
- `decimal.dfy`: the decimal rendering of revisions and its inverse.
- `store.dfy`: `src/store.rs`. The value semantics (`Put`, `Delete`, `Merge`) and the class `MemoryTiddlersStore`, whose methods are proved against them. Also lemmas over sequences of writes.
- `util.dfy`: `src/util.rs`.
- `handlers.dfy`: the request handlers and `ok_validator` of `src/main.rs`.
- `sync.dfy`: the gist synchronisation task in `main` and the backup route of `src/main.rs`.

The StoryList guard: `put_tiddler` and `delete_tiddler` guard the increment of the global revision with `key != "$:%2FStoryList" || key != "$:%2FStoryList"`. Both disjuncts are the same test, so the guard is equivalent to `key != "$:%2FStoryList"`. It is not always true. The model follows the code: a put or delete of the title `$:%2FStoryList` leaves the global revision unchanged. Every other write increments it by exactly 1. A consequence is that StoryList edits alone never trigger a periodic push. `Put`, `Delete`, `RevisionCountsWrites` and the two store methods state this.

Other behaviours of the code that the model keeps:

- A PUT adds `"bag": "bag"` to the stored metadata, so a read-back contains it.
- The PUT ETag is `"a/<title>/<rev>:"`, while GET tags are the bare decimal revision, so a PUT ETag never validates a later GET (`PutETagNeverValidatesGet`).
- `backup_to_gist` returns nothing: a failed request or a status other than 200 is only logged. Whether a push arrives is a parameter (`delivered`) of the model. The gist's content changes only on delivery, while the periodic task sets `last_reversion` after every attempt. So a failed push is not retried until the revision moves again (`StableRevisionPushesNothing`).

## Model

| member | source | states |
|---|---|---|
| Decimal.Show | src/store.rs:126-128 | the rendering of a revision is a non-empty string of digits with no leading zero |
| Decimal.ParseShow | src/store.rs:72 | parsing the decimal token of `n` gives back `n` (the token denotes the revision) |
| Decimal.ShowInjective | src/store.rs:72 | two revisions have the same token iff they are equal |
| Store.Put | src/store.rs:98-124 | an absent title is created with the given meta and text at revision 0 and 0 is returned; a present title gets the new meta and text, its revision + 1, and that is returned; the global revision moves by one unless the title is the StoryList; every other title is unchanged |
| Store.Delete | src/store.rs:86-96 | the title is absent afterwards; the result is true iff it was present; the global revision moves by one (unless StoryList) even when nothing was removed; other tiddlers are unchanged |
| Store.Merge | src/main.rs:176-183 | the result is the remote snapshot iff its global revision is strictly greater (or it equals the local one), otherwise the local store; its revision is the larger of the two |
| Store.WithText | src/store.rs:65-71 | for object metadata, "text" is set to the body and every other field is kept; non-object metadata is returned unchanged |
| Store.MemoryTiddlersStore.constructor | src/store.rs:47-50 | a new store is empty at global revision 0 |
| Store.MemoryTiddlersStore.GetTiddler | src/store.rs:63-76 | None iff the title is absent; otherwise the metadata with the body merged in, and the item revision as a decimal token that parses back to it |
| Store.MemoryTiddlersStore.AllTiddlers | src/store.rs:78-84 | an array with exactly one metadata value per stored tiddler, in some enumeration of the titles, with no body merged in |
| Store.MemoryTiddlersStore.DeleteTiddler | src/store.rs:86-96 | the new state and the result are those of `Delete`; the title reads as absent afterwards |
| Store.MemoryTiddlersStore.PutTiddler | src/store.rs:98-124 | the new state and the returned revision are those of `Put`; a read of the title right after yields the merged metadata at the returned revision |
| Store.MemoryTiddlersStore.GlobalRevision | src/store.rs:126-128 | the token parses back to the global revision |
| Store.MemoryTiddlersStore.GlobalRevisionNum | src/store.rs:129-131 | its decimal rendering is `GlobalRevision()` |
| Store.RevisionCountsWrites | src/store.rs:86-124 | over any sequence of puts and deletes the global revision grows by the number of writes to titles other than the StoryList, so by exactly one per write when none is a StoryList write |
| Store.ItemRevisionCountsPuts | src/store.rs:103-107 | while a present title is not deleted, its revision grows by exactly the number of puts to it, whatever other titles undergo |
| Store.FirstPutStartsAtZero | src/store.rs:108-117 | an absent title that receives n puts and no delete ends at item revision n - 1 |
| Store.OtherTitlesUnchanged | src/store.rs:90 | writes to other titles leave a tiddler (and its absence) exactly as it was |
| Util.CompareEtagAndResponse | src/util.rs:6-24 | 304 with an empty body iff the If-None-Match test (`Matched`, src/util.rs:10) matches, else 200 with the data; always a strong ETag of the revision, `must-revalidate, max-age=0` and JSON content type |
| Util.MatchedIsWrapping | src/util.rs:8-10 | the If-None-Match test `Matched`: a header matches iff it is present and is the (non-empty) revision with exactly one arbitrary byte on each side |
| Util.EchoedTagIsNotModified | src/util.rs:12-20 | sending back the ETag a response carried gives 304 while the revision is unchanged |
| Util.RevisionValidation | src/util.rs:6-24 | presenting the quoted token of revision `seen` gives 304 iff `seen` is the current revision, otherwise 200 with the payload |
| Util.ShortHeaderNeverMatches | src/util.rs:10 | a header of two bytes or fewer never matches, even an empty revision |
| Util.WeakTagNeverMatches | src/util.rs:10 | a weak tag `W/"t"` never matches revision `t` |
| Util.OuterBytesIgnored | src/util.rs:10 | any two outer bytes around the revision match; they are not checked to be quotes |
| Handlers.OkValidator | src/main.rs:40-51 | with a password, admitted iff user id and password are the configured ones; without, admitted iff the user id equals both the configured name and the configured password |
| Handlers.Normalize | src/main.rs:130-151 | a non-object body is stored unchanged with an empty text; an object body never keeps "text" |
| Handlers.NormalizeObject | src/main.rs:132-149 | field by field: lifted `fields` entries win, then `bag: "bag"`, then the body's own entries; `revision` and `fields` only survive when lifted; the text is the lifted "text" if any, else the top-level one, and "" unless it is a string |
| Handlers.InsertAll | src/main.rs:138-142 | after inserting every entry, the map has the union of keys, the entries' values where they exist and the old values elsewhere |
| Handlers.NormalizeBody | src/main.rs:130-151 | the in-place rewrite produces exactly `Normalize`'s metadata and text |
| Handlers.PutETagRoundTrip | src/main.rs:157-159 | the title and the item revision can be read back from the PUT ETag `PutETag`, `"a/<title>/<rev>:"` |
| Handlers.PutETagNeverValidatesGet | src/main.rs:157-159 | echoing a PUT ETag in If-None-Match never gives a 304 on an item GET, whose tag is the bare decimal revision |
| Handlers.HandlePut | src/main.rs:119-160 | a body that is not JSON changes nothing; otherwise the store becomes `Put` of the normalised body and the reply is 204 with the ETag that names the title and the new item revision |
| Handlers.HandleDelete | src/main.rs:60-78 | the store becomes `Delete` of the title and the reply is 204 whether or not it existed |
| Handlers.HandleGet | src/main.rs:87-95 | 404 with an empty body and no headers for an absent title; otherwise exactly `CompareEtagAndResponse` on the item revision's token with the metadata and body merged: a strong ETag, 304 with an empty body iff the header matches, else 200 with the merged metadata |
| Handlers.HandleList | src/main.rs:80-85 | the conditional response on the global revision: a strong ETag of it, `must-revalidate, max-age=0`, JSON content type; 304 with an empty body iff the header matches, else 200 with an array that lists every tiddler's metadata once |
| Handlers.PutTwiceScenario | src/main.rs:130-159 | a worked PUT of `{"meta":"x","fields":{"a":1},"text":"hello"}` into an empty store: item revision 0, ETag `"a/foo/0:"`, read-back with the lifted field, `bag` and text; the second put gives item revision 1, global revision 2 |
| Sync.Gist.BackupToGist | src/gist.rs:6-32 | every snapshot handed over is logged as an attempt; the gist's content becomes that snapshot only when the push is delivered, and is unchanged otherwise; no outcome is reported to the caller |
| Sync.PushesIncrease | src/main.rs:190-203 | while the global revision only grows, pushed revisions are strictly increasing and all newer than the startup revision, and the latest revision observed has been pushed unless it is still the startup one |
| Sync.SyncTask.constructor | src/main.rs:174-188 | the store becomes the fetched snapshot iff it is strictly newer; `last_reversion` is the post-merge revision, or the local one when nothing was fetched |
| Sync.StableRevisionPushesNothing | src/main.rs:190-203 | after a tick that saw revision c, any number of further ticks that see c push nothing, so an undelivered push is not retried while the revision stays |
| Sync.SyncTask.Tick | src/main.rs:190-203 | the whole store is pushed iff its revision differs from `last_reversion`; `last_reversion` then equals the current revision whether or not the push was delivered; the gist's content changes only on delivery; an unchanged revision pushes nothing and changes nothing |
| Sync.HandleBackup | src/main.rs:106-117 | the current store is pushed unconditionally (delivered or not) and the reply is 200 "backup to gist!" either way |

## Left out

- Persistence to `./data.json`: the reading in `MemoryTiddlersStore::new` (src/store.rs:35-52) and the detached writes after each put and delete (src/store.rs:91-94, 119-122). These are file I/O plus a race between unordered writes. The constructor models only the empty-store fallback.
- serde serialisation (`to_json_string`, the derives): a snapshot is the store's value `StoreState`. No JSON text, and so no serialise/parse round trip, is modelled.
- The gist transport. `backup_to_gist` in src/gist.rs is an HTTP PATCH, modelled as an attempt log plus a delivery outcome given as a parameter. The request body and the logging of failures are not modelled. `pull_from_gist` is not part of this model: its result is the `fetched` parameter of the `SyncTask` constructor.
- Concurrency: the `RwLock`/`lazy_static` global store, spawned tasks and the ten-second `time::interval`. Each handler and each tick is one sequential step on the store object.
- Bytes: the If-None-Match header is a sequence of characters, one per byte. The revisions it is compared with are ASCII digits.
- HandlePut: a body that is not JSON is answered with actix-web's error conversion of the serde error. The model only says that it is refused (`BodyNotJson`), not the status code. Reading the payload stream is not modelled.
- Integer widths: item revisions (`u32`) and the global revision (`u64`) are unbounded `nat`s, so overflow is not modelled.
- The static and constant routes (`index`, `favicon`, `status`, `get_wiki_json`), server wiring, environment configuration and the middleware in src/heroku_redict_https.rs (not compiled into the crate).
