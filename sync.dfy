/**
 * Synchronisation with the remote snapshot (a GitHub gist): the merge run
 * once at startup, the periodic push of the whole store whenever the global
 * revision has moved since the last push, and the `/recipes/backup` route.
 *
 * A pushed snapshot is the store's value (`StoreState`); its JSON text and
 * the HTTP call that carries it are not modelled. The remote is a `Gist`
 * object that logs, in order, every snapshot handed to it, and holds the
 * last snapshot that actually arrived. Whether a push arrives is decided
 * outside the program, so it is a parameter (`delivered`).
 */
module Sync {
  import opened Wrappers
  import opened Store
  import opened Util

  /**
   * The remote: `attempts` is every snapshot `backup_to_gist` was given,
   * oldest first; `remote` is the content of the gist, which only a
   * delivered push replaces.
   */
  class Gist {
    var attempts: seq<StoreState>
    var remote: Option<StoreState>

    constructor (initial: Option<StoreState>)
      ensures attempts == [] && remote == initial
    {
      attempts := [];
      remote := initial;
    }

    /**
     * `backup_to_gist`: one PATCH of the snapshot. A failed request or a
     * status other than 200 is only logged; the caller learns nothing about
     * the outcome, and the gist keeps its old content.
     */
    method BackupToGist(data: StoreState, delivered: bool)
      modifies this
      ensures attempts == old(attempts) + [data]
      ensures remote == (if delivered then Some(data) else old(remote))
    {
      attempts := attempts + [data];
      if delivered {
        remote := Some(data);
      }
    }
  }

  // The push decision over a run of ticks

  /**
   * `last_reversion` after ticks that observed the global revisions
   * `observed`, starting from `start`: every tick sets it to what it saw.
   */
  function RunLast(start: nat, observed: seq<nat>): (last: nat) {
    if observed == [] then start else observed[|observed| - 1]
  }

  /** The revisions pushed, in order, by ticks that observed `observed`. */
  function RunPushes(start: nat, observed: seq<nat>): (pushes: seq<nat>)
    decreases |observed|
  {
    if observed == [] then []
    else
      var before := observed[..|observed| - 1];
      var cur := observed[|observed| - 1];
      RunPushes(start, before) + (if cur != RunLast(start, before) then [cur] else [])
  }

  ghost predicate Nondecreasing(s: seq<nat>) {
    forall i, j :: 0 <= i < j < |s| ==> s[i] <= s[j]
  }

  ghost predicate StrictlyIncreasing(s: seq<nat>) {
    forall i, j :: 0 <= i < j < |s| ==> s[i] < s[j]
  }

  /**
   * While the global revision only goes up, each snapshot pushed is newer
   * than the one before and than the revision at startup, no snapshot is
   * pushed twice, and the latest revision seen has always been pushed
   * unless it is still the startup revision.
   */
  lemma {:induction false} PushesIncrease(start: nat, observed: seq<nat>)
    requires Nondecreasing([start] + observed)
    ensures StrictlyIncreasing(RunPushes(start, observed))
    ensures forall p :: p in RunPushes(start, observed) ==> start < p <= RunLast(start, observed)
    ensures RunLast(start, observed) != start ==>
      RunPushes(start, observed) != [] && RunPushes(start, observed)[|RunPushes(start, observed)| - 1] == RunLast(start, observed)
    decreases |observed|
  {
    if observed != [] {
      var before := observed[..|observed| - 1];
      var cur := observed[|observed| - 1];
      assert [start] + before == ([start] + observed)[..|observed|];
      PushesIncrease(start, before);
      var last := RunLast(start, before);
      var all := [start] + observed;
      assert all[|observed|] == cur;
      if before != [] {
        assert all[|before|] == last;
        assert all[0] <= all[|before|] <= all[|observed|];
      } else {
        assert all[0] <= all[1];
      }
      var earlier := RunPushes(start, before);
      if cur != last {
        assert RunPushes(start, observed) == earlier + [cur];
        forall i, j | 0 <= i < j < |earlier| + 1
          ensures (earlier + [cur])[i] < (earlier + [cur])[j]
        {
          if j == |earlier| {
            assert earlier[i] in earlier;
          }
        }
      } else {
        assert RunPushes(start, observed) == earlier;
      }
    }
  }

  /**
   * Once a tick has seen revision `c`, further ticks that see `c` again push
   * nothing, so a push of `c` that did not arrive is never retried until the
   * revision moves.
   */
  lemma {:induction false} StableRevisionPushesNothing(start: nat, observed: seq<nat>, c: nat, again: seq<nat>)
    requires forall i :: 0 <= i < |again| ==> again[i] == c
    ensures RunPushes(start, observed + [c] + again) == RunPushes(start, observed + [c])
    ensures RunLast(start, observed + [c] + again) == c
    decreases |again|
  {
    if again != [] {
      var prefix := observed + [c] + again[..|again| - 1];
      var run := observed + [c] + again;
      assert run[..|run| - 1] == prefix;
      assert run[|run| - 1] == c;
      StableRevisionPushesNothing(start, observed, c, again[..|again| - 1]);
    } else {
      assert observed + [c] + again == observed + [c];
    }
  }

  /**
   * The periodic backup task: `last_reversion`, plus (as ghost state) the
   * revision recorded at startup, the revisions every tick observed and the
   * revisions it pushed.
   */
  class SyncTask {
    var lastRevision: nat
    ghost var start: nat
    ghost var observed: seq<nat>
    ghost var pushed: seq<nat>

    ghost predicate Valid()
      reads this
    {
      lastRevision == RunLast(start, observed) && pushed == RunPushes(start, observed)
    }

    /**
     * Startup: a fetched snapshot replaces the store only when its global
     * revision is strictly greater; `last_reversion` is the revision after
     * that merge, or the local one when nothing was fetched.
     */
    constructor (store: MemoryTiddlersStore, fetched: Option<StoreState>)
      modifies store
      ensures store.State() == (if fetched.Some? then Merge(old(store.State()), fetched.value) else old(store.State()))
      ensures Valid() && lastRevision == store.revision && start == store.revision
      ensures observed == [] && pushed == []
    {
      if fetched.Some? {
        var remote := fetched.value;
        if store.GlobalRevisionNum() < remote.revision {
          store.tiddlers := remote.tiddlers;
          store.revision := remote.revision;
        }
      }
      lastRevision := store.GlobalRevisionNum();
      start := lastRevision;
      observed := [];
      pushed := [];
    }

    /**
     * One interval tick: the whole store is pushed exactly when its global
     * revision differs from `last_reversion`, which then becomes that
     * revision whether or not the push arrived; an unchanged revision pushes
     * nothing and changes nothing. `delivered` is the outcome of the push.
     */
    method Tick(store: MemoryTiddlersStore, gist: Gist, delivered: bool)
      requires Valid()
      modifies this, gist
      ensures Valid() && start == old(start) && observed == old(observed) + [store.revision]
      ensures lastRevision == store.revision
      ensures store.revision != old(lastRevision) ==>
        && gist.attempts == old(gist.attempts) + [store.State()]
        && gist.remote == (if delivered then Some(store.State()) else old(gist.remote))
        && pushed == old(pushed) + [store.revision]
      ensures store.revision == old(lastRevision) ==>
        gist.attempts == old(gist.attempts) && gist.remote == old(gist.remote) && pushed == old(pushed)
    {
      var cur := store.GlobalRevisionNum();
      ghost var before := observed;
      observed := observed + [cur];
      assert observed[..|observed| - 1] == before;
      if cur != lastRevision {
        gist.BackupToGist(store.State(), delivered);
        pushed := pushed + [cur];
        lastRevision := cur;
      }
    }
  }

  /**
   * `GET /recipes/backup`: the current store is handed to the remote
   * whatever its revision, and the reply is a plain acknowledgement; the
   * periodic task's `last_reversion` is not touched. The acknowledgement is
   * the same whether or not the push arrived.
   */
  method HandleBackup(store: MemoryTiddlersStore, gist: Gist, delivered: bool) returns (r: Response)
    modifies gist
    ensures gist.attempts == old(gist.attempts) + [store.State()]
    ensures gist.remote == (if delivered then Some(store.State()) else old(gist.remote))
    ensures r.status == StatusOk && r.body == Text("backup to gist!")
  {
    gist.BackupToGist(store.State(), delivered);
    r := Response(StatusOk, None, [], None, Text("backup to gist!"));
  }
}
