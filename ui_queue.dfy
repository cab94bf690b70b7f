/** The thumbnail work queue of the main window (app/ui_main.py): cards
    ask for a thumbnail of a given size, each request is queued once, and a
    timer tick loads a few queued thumbnails, front first, into the image
    cache, then asks again for every visible thumbnail still not cached.
    Loading an image is an oracle `load` (the PIL decode behind
    `_get_tk_image`). The timer is `_thumb_after_id` as a flag saying whether
    it holds an id, and a count of the `after` callbacks armed and not yet
    run. The visible cards are given as the thumbnail paths
    `_update_visible_thumbnails_only` computes for them, in card order. */
module ThumbQueues {
  import opened Text
  import opened Collections

  /** A request: the image file and the thumbnail edge in pixels. */
  type Key = (string, int)

  /** A decoded image, as the Tk photo object the cache holds. */
  datatype Photo = Photo(handle: nat)

  /** Thumbnails loaded per tick. */
  const BatchLimit: nat := 6

  /** The front of the queue one tick takes. */
  function BatchOf(q: seq<Key>): (b: seq<Key>)
    ensures |b| == if |q| < BatchLimit then |q| else BatchLimit
    ensures b == q[..|b|]
  {
    if |q| < BatchLimit then q else q[..BatchLimit]
  }

  /** The cache after loading `keys` in order: a key whose image loads is
      cached under that key, one that fails leaves the cache as it was. */
  function CacheAfter(cache: map<Key, Photo>, keys: seq<Key>, load: Key -> Option<Photo>): map<Key, Photo>
  {
    if keys == [] then cache
    else
      var c := CacheAfter(cache, keys[..|keys| - 1], load);
      var k := keys[|keys| - 1];
      if load(k).Some? then c[k := load(k).value] else c
  }

  /** After a batch, exactly the keys that loaded are cached with their
      images, and every other entry is kept. */
  lemma {:induction false} CacheAfterContents(cache: map<Key, Photo>, keys: seq<Key>, load: Key -> Option<Photo>, k: Key)
    ensures var c := CacheAfter(cache, keys, load);
      (k in c <==> k in cache || (k in keys && load(k).Some?))
      && (k in keys && load(k).Some? ==> c[k] == load(k).value)
      && (k !in keys && k in cache ==> c[k] == cache[k])
  {
    if keys != [] {
      var init := keys[..|keys| - 1];
      CacheAfterContents(cache, init, load, k);
      assert keys == init + [keys[|keys| - 1]];
    }
  }

  /** The batches successive ticks take from a queue nobody adds to. */
  function Batches(q: seq<Key>): seq<seq<Key>>
    decreases |q|
  {
    if q == [] then [] else [BatchOf(q)] + Batches(q[|BatchOf(q)|..])
  }

  function Flatten(bs: seq<seq<Key>>): seq<Key> {
    if bs == [] then [] else bs[0] + Flatten(bs[1..])
  }

  /** FIFO: the ticks load the queue in order, each tick at most six keys and
      at least one, and the queue is drained after ceil(n / 6) ticks. */
  lemma {:induction false} BatchesDrain(q: seq<Key>)
    ensures Flatten(Batches(q)) == q
    ensures forall i :: 0 <= i < |Batches(q)| ==> 0 < |Batches(q)[i]| <= BatchLimit
    ensures |Batches(q)| == (|q| + BatchLimit - 1) / BatchLimit
    decreases |q|
  {
    if q != [] {
      var b := BatchOf(q);
      var rest := q[|b|..];
      BatchesDrain(rest);
      assert Batches(q)[1..] == Batches(rest);
      assert b + rest == q;
      forall i | 0 <= i < |Batches(q)| ensures 0 < |Batches(q)[i]| <= BatchLimit {
        if i > 0 { assert Batches(q)[i] == Batches(rest)[i - 1]; }
      }
    }
  }

  /** The requests `_update_visible_thumbnails_only` makes: the key of each
      visible thumbnail at the current size that is not cached, in order. */
  function Uncached(paths: seq<string>, px: int, cache: map<Key, Photo>): seq<Key>
  {
    if paths == [] then []
    else
      var k := (paths[|paths| - 1], px);
      Uncached(paths[..|paths| - 1], px, cache) + (if k in cache then [] else [k])
  }

  lemma {:induction false} UncachedContents(paths: seq<string>, px: int, cache: map<Key, Photo>, k: Key)
    ensures k in Uncached(paths, px, cache) <==> k.0 in paths && k.1 == px && k !in cache
  {
    if paths != [] {
      var init := paths[..|paths| - 1];
      UncachedContents(init, px, cache, k);
      assert paths == init + [paths[|paths| - 1]];
    }
  }

  /** The queue after `_queue_thumb` of each key in turn, when the waiting
      set is the set of queued keys: a key already queued is skipped. */
  function Enqueued(q: seq<Key>, ks: seq<Key>): (r: seq<Key>)
    ensures |r| >= |q| && r[..|q|] == q
  {
    if ks == [] then q
    else
      var q' := Enqueued(q, ks[..|ks| - 1]);
      var k := ks[|ks| - 1];
      if k in q' then q' else q' + [k]
  }

  /** Re-queueing is de-duplication of the queue followed by the new keys:
      the queue keeps its order, and each new key not yet queued joins the
      back once, in first-request order. */
  lemma {:induction false} EnqueuedIsFirstSeen(q: seq<Key>, ks: seq<Key>)
    requires NoDuplicates(q)
    ensures Enqueued(q, ks) == FirstSeen(q + ks)
    ensures Enqueued(q, ks) == q + Filter(FirstSeen(ks), x => x !in q)
  {
    if ks == [] {
      assert q + ks == q;
      FirstSeenNoDuplicates(q);
    } else {
      var ks' := ks[..|ks| - 1];
      var k := ks[|ks| - 1];
      EnqueuedIsFirstSeen(q, ks');
      FirstSeenContents(q + ks');
      assert (q + ks)[..|q + ks| - 1] == q + ks';
      assert (q + ks)[|q + ks| - 1] == k;
    }
    FirstSeenAppend(q, ks);
    FirstSeenNoDuplicates(q);
  }

  /** The re-queued list holds each key once: the old ones and the new ones. */
  lemma EnqueuedContents(q: seq<Key>, ks: seq<Key>)
    requires NoDuplicates(q)
    ensures NoDuplicates(Enqueued(q, ks))
    ensures forall k :: k in Enqueued(q, ks) <==> k in q || k in ks
  {
    EnqueuedIsFirstSeen(q, ks);
    FirstSeenContents(q + ks);
  }

  /** One more visible card in `_update_visible_thumbnails_only`. */
  lemma RequeueStep(q: seq<Key>, paths: seq<string>, i: nat, px: int, cache: map<Key, Photo>)
    requires i < |paths|
    ensures var k := (paths[i], px);
      var ks := Uncached(paths[..i], px, cache);
      var q' := Enqueued(q, ks);
      && (k in cache ==> Enqueued(q, Uncached(paths[..i + 1], px, cache)) == q')
      && (k !in cache ==> Enqueued(q, Uncached(paths[..i + 1], px, cache)) == if k in q' then q' else q' + [k])
  {
    var k := (paths[i], px);
    var ks := Uncached(paths[..i], px, cache);
    assert paths[..i + 1][..i] == paths[..i] && paths[..i + 1][i] == paths[i];
    assert Uncached(paths[..i + 1], px, cache) == ks + (if k in cache then [] else [k]);
    if k !in cache {
      assert (ks + [k])[..|ks|] == ks;
    } else {
      assert ks + [] == ks;
    }
  }

  /** The queue a tick leaves: the rest after the batch, then the visible
      thumbnails missing from the new cache. */
  function TickQueue(q: seq<Key>, cache: map<Key, Photo>, load: Key -> Option<Photo>, paths: seq<string>, px: int): seq<Key> {
    var b := BatchOf(q);
    Enqueued(q[|b|..], Uncached(paths, px, CacheAfter(cache, b, load)))
  }

  /** A visible thumbnail whose image fails to load is queued again by the
      tick that tried it, so a further tick follows and it is retried for as
      long as it stays visible and keeps failing. */
  lemma FailedVisibleRetried(q: seq<Key>, cache: map<Key, Photo>, load: Key -> Option<Photo>,
                             paths: seq<string>, px: int, p: string)
    requires NoDuplicates(q)
    requires p in paths && (p, px) in BatchOf(q) && load((p, px)).None? && (p, px) !in cache
    ensures (p, px) in TickQueue(q, cache, load, paths, px)
  {
    var b := BatchOf(q);
    var c := CacheAfter(cache, b, load);
    CacheAfterContents(cache, b, load, (p, px));
    UncachedContents(paths, px, c, (p, px));
    NoDuplicatesDrop(q, |b|);
    EnqueuedContents(q[|b|..], Uncached(paths, px, c));
  }

  /** With every visible thumbnail cached (or none visible), a tick only
      takes its batch, so `BatchesDrain` describes the ticks. */
  lemma TickWithoutMisses(q: seq<Key>, cache: map<Key, Photo>, load: Key -> Option<Photo>, paths: seq<string>, px: int)
    requires forall p :: p in paths ==> (p, px) in CacheAfter(cache, BatchOf(q), load)
    ensures TickQueue(q, cache, load, paths, px) == q[|BatchOf(q)|..]
  {
    var c := CacheAfter(cache, BatchOf(q), load);
    var u := Uncached(paths, px, c);
    if u != [] {
      UncachedContents(paths, px, c, u[0]);
      assert false;
    }
  }

  lemma NoDuplicatesDrop(s: seq<Key>, n: nat)
    requires NoDuplicates(s) && n <= |s|
    ensures NoDuplicates(s[n..])
    ensures forall k :: k in s[n..] ==> k !in s[..n]
  {
    forall k | k in s[n..] ensures k !in s[..n] {
      var j :| 0 <= j < |s| - n && s[n..][j] == k;
      forall i | 0 <= i < n ensures s[..n][i] != k {
        assert s[..n][i] == s[i] && k == s[n + j];
      }
    }
  }

  /** Without duplicates, the requests left after a batch are the waiting
      ones minus the batch. */
  lemma SetDrop(s: seq<Key>, n: nat)
    requires NoDuplicates(s) && n <= |s|
    ensures (set k | k in s) - (set k | k in s[..n]) == set k | k in s[n..]
  {
    NoDuplicatesDrop(s, n);
    assert s == s[..n] + s[n..];
  }

  class ThumbQueue {
    /** `_thumb_queue`, `_thumb_waiting`, `_img_cache`, whether
        `_thumb_after_id` holds an id, how many `after` callbacks are armed
        and not yet run, and `_thumb_px`. */
    var queue: seq<Key>
    var waiting: set<Key>
    var cache: map<Key, Photo>
    var scheduled: bool
    var pending: nat
    var thumbPx: int

    /** Each queued request once, and the waiting set holds exactly the
        queued requests. */
    predicate Valid()
      reads this
    {
      NoDuplicates(queue) && waiting == set k | k in queue
    }

    constructor (px: int)
      ensures Valid()
      ensures queue == [] && waiting == {} && cache == map[] && !scheduled && pending == 0 && thumbPx == px
    {
      queue, waiting, cache, scheduled, pending, thumbPx := [], {}, map[], false, 0, px;
    }

    /** `_queue_thumb`: a request already waiting is ignored; a new one joins
        the back of the queue, and a tick is armed when no id is held. */
    method QueueThumb(path: string, size: int)
      requires Valid()
      modifies this
      ensures Valid()
      ensures old((path, size) in waiting) ==>
        queue == old(queue) && scheduled == old(scheduled) && pending == old(pending)
      ensures old((path, size) !in waiting) ==>
        queue == old(queue) + [(path, size)] && scheduled
        && pending == old(pending) + (if old(scheduled) then 0 else 1)
      ensures waiting == old(waiting) + {(path, size)}
      ensures cache == old(cache) && thumbPx == old(thumbPx)
    {
      var key := (path, size);
      if key in waiting {
        return;
      }
      waiting := waiting + {key};
      queue := queue + [key];
      if !scheduled {
        scheduled := true;
        pending := pending + 1;
      }
    }

    /** `_update_visible_thumbnails_only`: every visible thumbnail at the
        current size that is not cached is requested again. */
    method UpdateVisibleThumbnails(paths: seq<string>)
      requires Valid()
      modifies this
      ensures Valid()
      ensures queue == Enqueued(old(queue), Uncached(paths, thumbPx, cache))
      ensures scheduled == (old(scheduled) || |queue| > |old(queue)|)
      ensures pending == old(pending) + (if !old(scheduled) && |queue| > |old(queue)| then 1 else 0)
      ensures cache == old(cache) && thumbPx == old(thumbPx)
    {
      ghost var q0, s0, p0 := queue, scheduled, pending;
      var i := 0;
      while i < |paths|
        invariant 0 <= i <= |paths| && Valid()
        invariant queue == Enqueued(q0, Uncached(paths[..i], thumbPx, cache))
        invariant scheduled == (s0 || |queue| > |q0|)
        invariant pending == p0 + (if !s0 && |queue| > |q0| then 1 else 0)
        invariant cache == old(cache) && thumbPx == old(thumbPx)
      {
        var key := (paths[i], thumbPx);
        RequeueStep(q0, paths, i, thumbPx, cache);
        if key !in cache {
          assert key in waiting <==> key in queue;
          QueueThumb(paths[i], thumbPx);
        }
        i := i + 1;
      }
      assert paths[..i] == paths;
    }

    /** `_process_thumb_queue`, one run of an armed callback: the id is
        dropped; on an empty queue nothing else happens. Otherwise at most six
        requests are taken from the front and dropped from the waiting set,
        every image that loads is cached, the visible thumbnails still missing
        are requested again (which may arm a tick), and one more tick is
        armed while requests remain. */
    method ProcessQueue(load: Key -> Option<Photo>, paths: seq<string>)
      requires Valid()
      modifies this
      ensures Valid()
      ensures var p1 := if old(pending) > 0 then old(pending) - 1 else 0;
        old(queue) == [] ==>
          queue == [] && waiting == old(waiting) && cache == old(cache) && !scheduled && pending == p1
      ensures var p1 := if old(pending) > 0 then old(pending) - 1 else 0;
        old(queue) != [] ==>
          var b := BatchOf(old(queue));
          var rest := old(queue)[|b|..];
          cache == CacheAfter(old(cache), b, load)
          && queue == TickQueue(old(queue), old(cache), load, paths, thumbPx)
          && scheduled == (queue != [])
          && pending == p1 + (if |queue| > |rest| then 1 else 0) + (if queue != [] then 1 else 0)
      ensures thumbPx == old(thumbPx)
    {
      scheduled := false;
      pending := if pending > 0 then pending - 1 else 0;
      if queue == [] {
        return;
      }
      ghost var q0 := queue;
      ghost var p1 := pending;
      var batch := TakeBatch();
      NoDuplicatesDrop(q0, |batch|);
      SetDrop(q0, |batch|);
      LoadBatch(batch, load);
      ghost var rest := queue;
      UpdateVisibleThumbnails(paths);
      assert scheduled == (|queue| > |rest|);
      if queue != [] {
        scheduled := true;
        pending := pending + 1;
      }
    }

    /** The `while` loop of `_process_thumb_queue`: pop from the front until
        six requests are taken or the queue is empty. */
    method TakeBatch() returns (batch: seq<Key>)
      modifies this
      ensures batch == BatchOf(old(queue)) && queue == old(queue)[|batch|..]
      ensures waiting == old(waiting) && cache == old(cache)
      ensures thumbPx == old(thumbPx) && scheduled == old(scheduled) && pending == old(pending)
    {
      batch := [];
      while queue != [] && |batch| < BatchLimit
        invariant batch + queue == old(queue)
        invariant |batch| <= BatchLimit
        invariant queue == [] || |batch| == BatchLimit ==> batch == BatchOf(old(queue))
        invariant waiting == old(waiting) && cache == old(cache)
        invariant thumbPx == old(thumbPx) && scheduled == old(scheduled) && pending == old(pending)
        decreases |queue|
      {
        batch := batch + [queue[0]];
        queue := queue[1..];
      }
    }

    /** The `for` loop of `_process_thumb_queue`: each taken request stops
        waiting and its image, when it loads, enters the cache. */
    method LoadBatch(batch: seq<Key>, load: Key -> Option<Photo>)
      modifies this
      ensures waiting == old(waiting) - set k | k in batch
      ensures cache == CacheAfter(old(cache), batch, load)
      ensures queue == old(queue) && thumbPx == old(thumbPx) && scheduled == old(scheduled) && pending == old(pending)
    {
      var i := 0;
      while i < |batch|
        invariant 0 <= i <= |batch|
        invariant waiting == old(waiting) - set k | k in batch[..i]
        invariant cache == CacheAfter(old(cache), batch[..i], load)
        invariant queue == old(queue) && thumbPx == old(thumbPx) && scheduled == old(scheduled) && pending == old(pending)
      {
        var key := batch[i];
        assert batch[..i + 1] == batch[..i] + [key];
        waiting := waiting - {key};
        var img := load(key);
        if img.Some? {
          cache := cache[key := img.value];
        }
        i := i + 1;
      }
      assert batch[..i] == batch;
    }

    /** The part of `_relayout_cards` that concerns the queue: a new thumbnail
        size drops every pending request, since they are for the old size. */
    method SetThumbSize(px: int)
      requires Valid()
      modifies this
      ensures Valid()
      ensures thumbPx == px
      ensures old(thumbPx) != px ==> queue == [] && waiting == {}
      ensures old(thumbPx) == px ==> queue == old(queue) && waiting == old(waiting)
      ensures cache == old(cache) && scheduled == old(scheduled) && pending == old(pending)
    {
      var oldPx := thumbPx;
      thumbPx := px;
      if oldPx != px {
        queue := [];
        waiting := {};
      }
    }
  }
}
