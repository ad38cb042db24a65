/**
 * The per-guild music player of the Go bot (package musicplayer): a queue of
 * entries, the song being played and the two loop flags. The queue is a
 * sequence field that the methods reassign, as the Go methods reassign and
 * re-slice their slice.
 */
module Player {

  import opened Wrappers

  /** What the YouTube package resolves a video URL to. */
  datatype Video = Video(id: string, title: string, url: string)

  /** One queue entry (PlayerQueueItem); entries are told apart by videoId. */
  datatype Item = Item(videoId: string, title: string, url: string, requestedBy: string)

  /** The Discord member who asked for a song. */
  datatype Member = Member(nick: string, username: string, userId: string)

  /** What AddPlaylistToQueue hands back: the requester and the new entries. */
  datatype PlaylistInfo = PlaylistInfo(requestedBy: string, items: seq<Item>)

  /**
   * The requester text "nick (username#id)": the nick, then the username and
   * the user id inside parentheses, separated by '#'.
   */
  function RequestedBy(m: Member): (s: string)
    ensures var a, b, c := |m.nick|, |m.username|, |m.userId|;
      |s| == a + b + c + 4 &&
      s[..a] == m.nick && s[a..a + 2] == " (" && s[a + 2..a + 2 + b] == m.username &&
      s[a + 2 + b] == '#' && s[a + 3 + b..a + 3 + b + c] == m.userId && s[|s| - 1] == ')'
  {
    var p1 := m.nick + " (";
    var p2 := p1 + m.username;
    var p3 := p2 + "#";
    var p4 := p3 + m.userId;
    var s := p4 + ")";
    assert s[..|p4|] == p4 && p4[..|p3|] == p3 && p3[..|p2|] == p2 && p2[..|p1|] == p1;
    assert s[..|m.nick|] == p1[..|m.nick|] == m.nick;
    assert s[|m.nick|..|p1|] == p1[|m.nick|..] == " (";
    assert s[|p1|..|p2|] == p2[|p1|..] == m.username;
    assert s[|p3|..|p4|] == p4[|p3|..] == m.userId;
    s
  }

  /** The queue entry built for a resolved video. */
  function NewItem(requestedBy: string, v: Video): (item: Item)
  {
    Item(v.id, v.title, v.url, requestedBy)
  }

  /** The entries built for a resolved playlist, in playlist order. */
  function PlaylistItems(requestedBy: string, videos: seq<Video>): (items: seq<Item>)
    ensures Ids(items) == set k | 0 <= k < |videos| :: videos[k].id
  {
    var items := seq(|videos|, k requires 0 <= k < |videos| => NewItem(requestedBy, videos[k]));
    assert forall k :: 0 <= k < |items| ==> items[k].videoId == videos[k].id;
    items
  }

  // ---------------------------------------------------------------------------
  // Specification functions over a queue
  // ---------------------------------------------------------------------------

  /** The set of video ids in a queue. */
  ghost function Ids(q: seq<Item>): (ids: set<string>)
  {
    set k | 0 <= k < |q| :: q[k].videoId
  }

  lemma IdsSnoc(p: seq<Item>, x: Item)
    ensures Ids(p + [x]) == Ids(p) + {x.videoId}
  {
    var q := p + [x];
    forall id | id in Ids(q) ensures id in Ids(p) + {x.videoId} {
      var k :| 0 <= k < |q| && q[k].videoId == id;
      if k < |p| { assert p[k] == q[k]; }
    }
    forall id | id in Ids(p) ensures id in Ids(q) {
      var k :| 0 <= k < |p| && p[k].videoId == id;
      assert q[k] == p[k];
    }
    assert q[|p|] == x;
  }

  /** No two entries share a video id. */
  ghost predicate DistinctIds(q: seq<Item>)
  {
    forall i, j :: 0 <= i < j < |q| ==> q[i].videoId != q[j].videoId
  }

  /**
   * The least index whose entry has the given id, or -1 when there is none:
   * what findSongIndex returns.
   */
  function FirstIndex(q: seq<Item>, id: string): (r: int)
    ensures -1 <= r < |q|
    ensures r == -1 <==> forall k :: 0 <= k < |q| ==> q[k].videoId != id
    ensures r >= 0 ==> q[r].videoId == id && forall k :: 0 <= k < r ==> q[k].videoId != id
    ensures r >= 0 <==> id in Ids(q)
  {
    if q == [] then -1
    else
      var r := FirstIndex(q[..|q| - 1], id);
      if r >= 0 then r
      else if q[|q| - 1].videoId == id then |q| - 1
      else -1
  }

  /** The queue with the entry at i cut out (append(q[:i], q[i+1:]...)). */
  function RemoveAt(q: seq<Item>, i: nat): (r: seq<Item>)
    requires i < |q|
  {
    seq(|q| - 1, k requires 0 <= k < |q| - 1 => if k < i then q[k] else q[k + 1])
  }

  /**
   * The queue after RemoveSongFromQueue: unchanged when empty, else without
   * the first entry carrying the id (which must then be present).
   */
  ghost function WithoutSong(q: seq<Item>, id: string): (r: seq<Item>)
    requires q == [] || id in Ids(q)
  {
    if q == [] then [] else RemoveAt(q, FirstIndex(q, id))
  }

  /**
   * On a queue holding the id, exactly one entry goes: the first one with
   * that id; everything before it stays, everything after it moves up by one.
   */
  lemma {:induction false} WithoutSongSpec(q: seq<Item>, id: string)
    requires id in Ids(q)
    ensures var i := FirstIndex(q, id);
      0 <= i < |q| && q[i].videoId == id && (forall k :: 0 <= k < i ==> q[k].videoId != id) &&
      |WithoutSong(q, id)| == |q| - 1 &&
      WithoutSong(q, id)[..i] == q[..i] && WithoutSong(q, id)[i..] == q[i + 1..] &&
      multiset(WithoutSong(q, id)) + multiset{q[i]} == multiset(q)
  {
    var i := FirstIndex(q, id);
    var r := WithoutSong(q, id);
    assert r == q[..i] + q[i + 1..];
    assert q == q[..i] + [q[i]] + q[i + 1..];
  }

  /**
   * The queue after postSongHandling(item): looping the queue takes
   * precedence and moves the entry found for the item's id to the back (as
   * item); looping the song keeps the queue; otherwise the song is removed.
   */
  ghost function AfterSong(q: seq<Item>, item: Item, loopQueue: bool, loopSong: bool): (r: seq<Item>)
    requires loopQueue ==> item.videoId in Ids(q)
    requires !loopQueue && !loopSong ==> q == [] || item.videoId in Ids(q)
  {
    if loopQueue then RemoveAt(q, FirstIndex(q, item.videoId)) + [item]
    else if loopSong then q
    else WithoutSong(q, item.videoId)
  }

  /**
   * With queue looping the length is kept, and when the entry found is the
   * item itself the queue is a permutation of what it was; with the item at
   * the head it is a rotation by one. Song looping is then irrelevant.
   */
  lemma {:induction false} AfterSongLoopQueue(q: seq<Item>, item: Item, loopSong: bool)
    requires item.videoId in Ids(q)
    ensures |AfterSong(q, item, true, loopSong)| == |q|
    ensures AfterSong(q, item, true, loopSong) == AfterSong(q, item, true, !loopSong)
    ensures q[FirstIndex(q, item.videoId)] == item ==>
      multiset(AfterSong(q, item, true, loopSong)) == multiset(q)
    ensures q[0] == item ==> AfterSong(q, item, true, loopSong) == q[1..] + [q[0]]
  {
    WithoutSongSpec(q, item.videoId);
    if q[0] == item {
      assert FirstIndex(q, item.videoId) == 0;
    }
  }

  /** Without queue looping: song looping keeps the queue, otherwise one entry goes. */
  lemma {:induction false} AfterSongNoLoopQueue(q: seq<Item>, item: Item, loopSong: bool)
    requires !loopSong ==> q == [] || item.videoId in Ids(q)
    ensures loopSong ==> AfterSong(q, item, false, loopSong) == q
    ensures !loopSong && q != [] ==>
      |AfterSong(q, item, false, loopSong)| == |q| - 1 &&
      multiset(AfterSong(q, item, false, loopSong)) + multiset{q[FirstIndex(q, item.videoId)]} == multiset(q)
    ensures !loopSong && q == [] ==> AfterSong(q, item, false, loopSong) == []
  {
    if !loopSong && q != [] {
      WithoutSongSpec(q, item.videoId);
    }
  }

  /**
   * The queue without later duplicates: an entry is kept exactly when no
   * earlier entry has its video id.
   */
  ghost function Dedup(q: seq<Item>): (r: seq<Item>)
  {
    if q == [] then []
    else
      var p, x := q[..|q| - 1], q[|q| - 1];
      if x.videoId in Ids(p) then Dedup(p) else Dedup(p) + [x]
  }

  /** Deduplication keeps every id and leaves no two entries with the same id. */
  lemma {:induction false} DedupIdsAndDistinct(q: seq<Item>)
    ensures Ids(Dedup(q)) == Ids(q)
    ensures DistinctIds(Dedup(q))
  {
    if q != [] {
      var p, x := q[..|q| - 1], q[|q| - 1];
      assert q == p + [x];
      DedupIdsAndDistinct(p);
      IdsSnoc(p, x);
      if x.videoId !in Ids(p) {
        IdsSnoc(Dedup(p), x);
        var d := Dedup(q);
        forall i, j | 0 <= i < j < |d| ensures d[i].videoId != d[j].videoId {
          if j == |d| - 1 {
            assert d[i] == Dedup(p)[i];
          } else {
            assert d[i] == Dedup(p)[i] && d[j] == Dedup(p)[j];
          }
        }
      }
    }
  }

  /** A queue that already has distinct ids is left as it is. */
  lemma {:induction false} DedupOfDistinct(q: seq<Item>)
    requires DistinctIds(q)
    ensures Dedup(q) == q
  {
    if q != [] {
      var p, x := q[..|q| - 1], q[|q| - 1];
      assert q == p + [x];
      assert DistinctIds(p) by {
        forall i, j | 0 <= i < j < |p| ensures p[i].videoId != p[j].videoId {
          assert p[i] == q[i] && p[j] == q[j];
        }
      }
      DedupOfDistinct(p);
    }
  }

  /** Removing duplicates twice is the same as removing them once. */
  lemma DedupIdempotent(q: seq<Item>)
    ensures Dedup(Dedup(q)) == Dedup(q)
  {
    DedupIdsAndDistinct(q);
    DedupOfDistinct(Dedup(q));
  }

  /** a can be obtained from b by deleting entries. */
  ghost predicate IsSubsequence(a: seq<Item>, b: seq<Item>)
    decreases |b|
  {
    if a == [] then true
    else if b == [] then false
    else
      (a[|a| - 1] == b[|b| - 1] && IsSubsequence(a[..|a| - 1], b[..|b| - 1]))
      || IsSubsequence(a, b[..|b| - 1])
  }

  /** Deduplication only deletes entries; the survivors keep their order. */
  lemma {:induction false} DedupIsSubsequence(q: seq<Item>)
    ensures IsSubsequence(Dedup(q), q)
  {
    if q != [] {
      var p, x := q[..|q| - 1], q[|q| - 1];
      DedupIsSubsequence(p);
      var d := Dedup(q);
      if d != [] {
        if x.videoId in Ids(p) {
          assert d == Dedup(p);
        } else {
          assert d[..|d| - 1] == Dedup(p);
        }
      }
    }
  }

  /** For every id, the entry deduplication keeps is the first one in the queue. */
  lemma {:induction false} DedupKeepsFirst(q: seq<Item>, id: string)
    requires id in Ids(q)
    ensures FirstIndex(Dedup(q), id) >= 0
    ensures Dedup(q)[FirstIndex(Dedup(q), id)] == q[FirstIndex(q, id)]
  {
    DedupIdsAndDistinct(q);
    var p, x := q[..|q| - 1], q[|q| - 1];
    assert q == p + [x];
    IdsSnoc(p, x);
    DedupIdsAndDistinct(p);
    if id in Ids(p) {
      DedupKeepsFirst(p, id);
      if x.videoId !in Ids(p) {
        var d := Dedup(q);
        assert d[..|d| - 1] == Dedup(p);
      }
    } else {
      assert x.videoId == id;
    }
  }

  // ---------------------------------------------------------------------------
  // Shuffle: the Fisher-Yates walk of Go's rand.Shuffle
  // ---------------------------------------------------------------------------

  /** q with the entries at i and j exchanged (the swap callback). */
  function Swap(q: seq<Item>, i: nat, j: nat): (r: seq<Item>)
    requires i < |q| && j < |q|
  {
    q[i := q[j]][j := q[i]]
  }

  lemma SwapPermutes(q: seq<Item>, i: nat, j: nat)
    requires i < |q| && j < |q|
    ensures |Swap(q, i, j)| == |q|
    ensures multiset(Swap(q, i, j)) == multiset(q)
  {
  }

  /**
   * The rest of the shuffle from position i down to 1: step i swaps i with
   * the draw for that step taken modulo i + 1, as rand.Shuffle does with
   * int31n(i + 1). draws[k] is the draw of the k-th step.
   */
  ghost function Shuffled(q: seq<Item>, draws: seq<nat>, i: int): (r: seq<Item>)
    requires i < |q| && |draws| + 1 >= |q|
    decreases i
  {
    if i <= 0 then q
    else
      var s := Swap(q, i, draws[|q| - 1 - i] % (i + 1));
      assert |s| == |q| by { SwapPermutes(q, i, draws[|q| - 1 - i] % (i + 1)); }
      Shuffled(s, draws, i - 1)
  }

  /** Whatever the draws, a shuffle keeps the length and the multiset of entries. */
  lemma {:induction false} ShuffledPermutes(q: seq<Item>, draws: seq<nat>, i: int)
    requires i < |q| && |draws| + 1 >= |q|
    ensures |Shuffled(q, draws, i)| == |q|
    ensures multiset(Shuffled(q, draws, i)) == multiset(q)
    decreases i
  {
    if i > 0 {
      var j := draws[|q| - 1 - i] % (i + 1);
      SwapPermutes(q, i, j);
      ShuffledPermutes(Swap(q, i, j), draws, i - 1);
    }
  }

  // ---------------------------------------------------------------------------
  // The player
  // ---------------------------------------------------------------------------

  class MusicPlayer {
    var queue: seq<Item>
    var activeSong: Option<Item>
    var isPlaying: bool
    var loopQueue: bool
    var loopSong: bool

    /** The player New returns once Lavalink and the voice channel are up. */
    constructor ()
      ensures queue == [] && activeSong == None
      ensures !isPlaying && !loopQueue && !loopSong
    {
      queue := [];
      activeSong := None;
      isPlaying := false;
      loopQueue := false;
      loopSong := false;
    }

    /**
     * Appends the entry built from a resolved video; a failed resolution
     * returns its error and leaves the queue alone.
     */
    method AddSongToQueue(member: Member, resolved: Result<Video>) returns (r: Result<Item>)
      modifies this`queue
      ensures resolved.Err? ==> r == Err(resolved.msg) && queue == old(queue)
      ensures resolved.Ok? ==> r == Ok(NewItem(RequestedBy(member), resolved.value))
      ensures resolved.Ok? ==> queue == old(queue) + [r.value]
    {
      if resolved.Err? {
        return Err(resolved.msg);
      }
      var queueItem := NewItem(RequestedBy(member), resolved.value);
      queue := queue + [queueItem];
      r := Ok(queueItem);
    }

    /**
     * Appends the entries of a resolved playlist in playlist order. A failed
     * resolution is reported with a prefix; a missing playlist (nil, nil)
     * gives no info; in both cases the queue is unchanged.
     */
    method AddPlaylistToQueue(member: Member, resolved: Result<Option<seq<Video>>>)
      returns (r: Result<Option<PlaylistInfo>>)
      modifies this`queue
      ensures resolved.Err? ==> r == Err("Failed to get playlist info: " + resolved.msg)
      ensures resolved == Ok(None) ==> r == Ok(None)
      ensures (resolved.Err? || resolved == Ok(None)) ==> queue == old(queue)
      ensures resolved.Ok? && resolved.value.Some? ==>
        var items := PlaylistItems(RequestedBy(member), resolved.value.value);
        r == Ok(Some(PlaylistInfo(RequestedBy(member), items))) && queue == old(queue) + items
    {
      if resolved.Err? {
        return Err("Failed to get playlist info: " + resolved.msg);
      }
      if resolved.value.None? {
        return Ok(None);
      }
      var requestedBy := RequestedBy(member);
      var playlistInfo := PlaylistInfo(requestedBy, PlaylistItems(requestedBy, resolved.value.value));
      queue := queue + playlistInfo.items;
      r := Ok(Some(playlistInfo));
    }

    /**
     * Shuffles the queue in place with the given random draws, one per swap
     * step; the entries are only permuted.
     */
    method Shuffle(draws: seq<nat>)
      requires |draws| + 1 >= |queue|
      modifies this`queue
      ensures queue == Shuffled(old(queue), draws, |old(queue)| - 1)
      ensures |queue| == |old(queue)| && multiset(queue) == multiset(old(queue))
    {
      var n := |queue|;
      var i := n - 1;
      while i > 0
        invariant -1 <= i < n && |queue| == n
        invariant Shuffled(queue, draws, i) == Shuffled(old(queue), draws, n - 1)
        decreases i
      {
        var j := draws[n - 1 - i] % (i + 1);
        SwapPermutes(queue, i, j);
        queue := Swap(queue, i, j);
        i := i - 1;
      }
      ShuffledPermutes(old(queue), draws, n - 1);
    }

    /** Keeps only the head of the queue (the song being played). */
    method ClearQueue()
      requires |queue| >= 1
      modifies this`queue
      ensures queue == [old(queue)[0]]
    {
      queue := queue[..1];
    }

    /** Drops every entry whose video id occurred earlier in the queue. */
    method RemoveDuplicates()
      modifies this`queue
      ensures queue == Dedup(old(queue))
      ensures Ids(queue) == Ids(old(queue)) && DistinctIds(queue)
      ensures IsSubsequence(queue, old(queue))
    {
      var keys: set<string> := {};
      var list: seq<Item> := [];
      var k := 0;
      while k < |queue|
        invariant queue == old(queue)
        invariant 0 <= k <= |queue|
        invariant list == Dedup(queue[..k])
        invariant keys == Ids(queue[..k])
      {
        var entry := queue[k];
        assert queue[..k + 1] == queue[..k] + [entry];
        IdsSnoc(queue[..k], entry);
        if entry.videoId !in keys {
          keys := keys + {entry.videoId};
          list := list + [entry];
        }
        k := k + 1;
      }
      assert queue[..|queue|] == queue;
      DedupIdsAndDistinct(queue);
      DedupIsSubsequence(queue);
      queue := list;
    }

    /** The least index of an entry with the given id, or -1 when there is none. */
    method FindSongIndex(videoId: string) returns (i: int)
      ensures -1 <= i < |queue|
      ensures i == -1 <==> forall k :: 0 <= k < |queue| ==> queue[k].videoId != videoId
      ensures i >= 0 ==> queue[i].videoId == videoId
      ensures forall k :: 0 <= k < i ==> queue[k].videoId != videoId
      ensures i == FirstIndex(queue, videoId)
    {
      i := 0;
      while i < |queue|
        invariant 0 <= i <= |queue|
        invariant forall k :: 0 <= k < i ==> queue[k].videoId != videoId
      {
        if queue[i].videoId == videoId {
          return;
        }
        i := i + 1;
      }
      i := -1;
    }

    /**
     * Cuts the first entry with the item's id out of the queue; an empty
     * queue is left alone. On a non-empty queue the id must be present
     * (findSongIndex's -1 would make the Go re-slice panic).
     */
    method RemoveSongFromQueue(item: Item)
      requires queue == [] || item.videoId in Ids(queue)
      modifies this`queue
      ensures queue == WithoutSong(old(queue), item.videoId)
    {
      if |queue| == 0 {
        return;
      }
      var sIdx := FindSongIndex(item.videoId);
      queue := RemoveAt(queue, sIdx);
    }

    /**
     * What happens to the queue when a song ends: nothing is active any more;
     * with queue looping the entry found for the item moves to the back as
     * the item; else with song looping the queue stays; else the entry is
     * removed.
     */
    method PostSongHandling(item: Item)
      requires loopQueue ==> item.videoId in Ids(queue)
      requires !loopQueue && !loopSong ==> queue == [] || item.videoId in Ids(queue)
      modifies this`queue, this`activeSong
      ensures activeSong == None
      ensures queue == AfterSong(old(queue), item, loopQueue, loopSong)
    {
      activeSong := None;

      if loopQueue {
        var sIdx := FindSongIndex(item.videoId);
        queue := RemoveAt(queue, sIdx) + [item];
      } else if !loopSong {
        RemoveSongFromQueue(item);
      }
    }

    /** The bookkeeping of playCurrentSong: the head of the queue becomes the active song. */
    method StartCurrentSong()
      requires |queue| > 0
      modifies this`activeSong
      ensures activeSong == Some(queue[0])
    {
      activeSong := Some(queue[0]);
    }

    /** The bookkeeping of a skip signal: song looping is switched off. */
    method SkipCurrentSong()
      modifies this`loopSong
      ensures !loopSong
    {
      loopSong := false;
    }
  }
}
