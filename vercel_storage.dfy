/**
 * The in-memory storage: two insertion-ordered maps, `screenshots` and
 * `queueItems`, with the table operations the services and the HTTP
 * handlers call. The clock (`Date.now()`) and `randomUUID()` become
 * parameters: `now` in milliseconds and the `id` of a new record.
 */
module Storage {
  import opened Wrappers
  import opened Text
  import opened Sequences
  import opened InsertionMaps
  import opened Schema

  /** `getRecentScreenshots` returns at most this many records. */
  const RecentLimit: nat := 10

  /** The fixed average processing time `getStats` reports, in minutes. */
  const AverageMinutes: real := 1.8

  /** `Date.now() - hours * 60 * 60 * 1000` */
  function Cutoff(now: int, hours: int): int {
    now - hours * 60 * 60 * 1000
  }

  /** `screenshot.createdAt && new Date(screenshot.createdAt) > cutoff` */
  predicate CreatedAfter(s: Screenshot, cutoff: int) {
    s.createdAt.Some? && s.createdAt.value > cutoff
  }

  /** `screenshot.createdAt && new Date(screenshot.createdAt) < cutoff` */
  predicate CreatedBefore(s: Screenshot, cutoff: int) {
    s.createdAt.Some? && s.createdAt.value < cutoff
  }

  /** The comparator `(a, b) => b.createdAt - a.createdAt` as an ascending key. */
  function NewestFirstKey(s: Screenshot): int {
    -s.createdAt.GetOr(0)
  }

  /** The `filter` callback of `getRecentScreenshots`. */
  function Recent(cutoff: int): Screenshot -> bool {
    (s: Screenshot) => CreatedAfter(s, cutoff)
  }

  /** The comparator `(a, b) => parseInt(a.position) - parseInt(b.position)` as a key. */
  function PositionKey(q: QueueItem): int {
    ParseInt(q.position).GetOr(0)
  }

  datatype Stats = Stats(total: nat, successRate: real, avgTime: real, activeUsers: nat)

  /** `new Set(screenshots.map(s => s.userId))` */
  function DistinctUsers(vs: seq<Screenshot>): (users: set<Option<string>>)
    ensures |users| <= |vs|
    ensures |vs| > 0 ==> |users| > 0
    ensures forall u :: u in users <==> exists i :: 0 <= i < |vs| && vs[i].userId == u
    decreases |vs|
  {
    if vs == [] then {}
    else
      var rest := DistinctUsers(vs[1..]);
      UsersCons(vs, rest);
      {vs[0].userId} + rest
  }

  /** Adding the owner of the head to the owners of the tail gives the owners of the list. */
  lemma UsersCons(vs: seq<Screenshot>, rest: set<Option<string>>)
    requires vs != [] && |rest| <= |vs| - 1
    requires forall u :: u in rest <==> exists i :: 0 <= i < |vs| - 1 && vs[1..][i].userId == u
    ensures |{vs[0].userId} + rest| <= |vs|
    ensures forall u :: u in {vs[0].userId} + rest <==> exists i :: 0 <= i < |vs| && vs[i].userId == u
  {
    forall u | u in {vs[0].userId} + rest ensures exists i :: 0 <= i < |vs| && vs[i].userId == u {
      if u != vs[0].userId {
        var i :| 0 <= i < |vs| - 1 && vs[1..][i].userId == u;
        assert vs[i + 1].userId == u;
      }
    }
    forall u | exists i :: 0 <= i < |vs| && vs[i].userId == u ensures u in {vs[0].userId} + rest {
      var i :| 0 <= i < |vs| && vs[i].userId == u;
      if i > 0 {
        assert vs[1..][i - 1].userId == u;
      }
    }
  }

  /** `Math.min(n, limit)`: how many elements `slice(0, limit)` keeps. */
  function Min(a: nat, b: nat): nat {
    if a < b then a else b
  }

  /** In a sorted list, whatever is left behind a prefix ranks after every element of it. */
  lemma {:induction false} SortedPrefixRanksFirst<T>(s: seq<T>, key: T -> int, n: nat, x: T)
    requires SortedBy(s, key) && n <= |s| && x in s && x !in s[..n]
    ensures n < |s|
    ensures forall y :: y in s[..n] ==> key(y) <= key(x)
  {
    forall i | 0 <= i < n ensures s[i] != x {
      assert s[..n][i] == s[i];
    }
    forall y | y in s[..n] ensures key(y) <= key(x) {
      var i :| 0 <= i < n && s[..n][i] == y;
      assert s[i] == y;
    }
  }

  /** A prefix holds each element at most as often as the whole sequence. */
  lemma PrefixSubMultiset<T>(s: seq<T>, n: nat)
    requires n <= |s|
    ensures multiset(s[..n]) <= multiset(s)
  {
    assert s == s[..n] + s[n..];
  }

  /** `candidates.sort(newest first).slice(0, RecentLimit)` */
  function NewestFirst(candidates: seq<Screenshot>): (r: seq<Screenshot>)
    ensures |r| == Min(|candidates|, RecentLimit)
    ensures multiset(r) <= multiset(candidates)
    ensures forall s :: s in r ==> s in candidates
    ensures forall i, j :: 0 <= i < j < |r| ==> r[i].createdAt.GetOr(0) >= r[j].createdAt.GetOr(0)
    ensures forall s :: s in candidates && s !in r ==>
              |r| == RecentLimit && forall x :: x in r ==> x.createdAt.GetOr(0) >= s.createdAt.GetOr(0)
    ensures forall t :: Filter(r, KeyIs(NewestFirstKey, t)) <= Filter(candidates, KeyIs(NewestFirstKey, t))
  {
    var sorted := SortBy(candidates, NewestFirstKey);
    assert |sorted| == |candidates| by {
      assert |multiset(sorted)| == |multiset(candidates)|;
    }
    var n := Min(|sorted|, RecentLimit);
    NewestFirstPrefix(candidates, sorted, n);
    PrefixSubMultiset(sorted, n);
    forall t ensures Filter(sorted[..n], KeyIs(NewestFirstKey, t)) <= Filter(candidates, KeyIs(NewestFirstKey, t)) {
      PrefixKeepsTieOrder(sorted, n, KeyIs(NewestFirstKey, t));
    }
    sorted[..n]
  }

  /** What a filter keeps of a prefix is a prefix of what it keeps of the whole. */
  lemma PrefixKeepsTieOrder<T(!new)>(s: seq<T>, n: nat, keep: T -> bool)
    requires n <= |s|
    ensures Filter(s[..n], keep) <= Filter(s, keep)
  {
    assert s == s[..n] + s[n..];
    FilterAppend(s[..n], s[n..], keep);
  }

  lemma NewestFirstPrefix(candidates: seq<Screenshot>, sorted: seq<Screenshot>, n: nat)
    requires sorted == SortBy(candidates, NewestFirstKey) && n == Min(|sorted|, RecentLimit)
    ensures forall s :: s in sorted[..n] ==> s in candidates
    ensures forall i, j :: 0 <= i < j < n ==> sorted[i].createdAt.GetOr(0) >= sorted[j].createdAt.GetOr(0)
    ensures forall s :: s in candidates && s !in sorted[..n] ==>
              n == RecentLimit && forall x :: x in sorted[..n] ==> x.createdAt.GetOr(0) >= s.createdAt.GetOr(0)
  {
    forall s | s in sorted[..n] ensures s in candidates {
      assert s in sorted;
      assert s in multiset(sorted);
    }
    forall i, j | 0 <= i < j < n ensures sorted[i].createdAt.GetOr(0) >= sorted[j].createdAt.GetOr(0) {
      assert NewestFirstKey(sorted[i]) <= NewestFirstKey(sorted[j]);
    }
    forall s | s in candidates && s !in sorted[..n]
      ensures n == RecentLimit && forall x :: x in sorted[..n] ==> x.createdAt.GetOr(0) >= s.createdAt.GetOr(0)
    {
      assert s in multiset(candidates);
      SortedPrefixRanksFirst(sorted, NewestFirstKey, n, s);
    }
  }

  /** A share of a positive total, as a percentage, lies between 0 and 100. */
  lemma PercentageBounds(part: nat, total: nat)
    requires part <= total
    ensures 0 < total ==> 0.0 <= (part as real / total as real) * 100.0 <= 100.0
  {
    if 0 < total {
      assert part as real / total as real <= 1.0;
    }
  }

  /** The owners found by walking the values are the owners of the stored records. */
  lemma UsersOfValues(m: InsertionMap<Screenshot>)
    requires m.Valid()
    ensures DistinctUsers(m.Values()) == set k | k in m.entries :: m.entries[k].userId
  {
    var vs := m.Values();
    var users := DistinctUsers(vs);
    forall u | u in users ensures u in set k | k in m.entries :: m.entries[k].userId {
      var i :| 0 <= i < |vs| && vs[i].userId == u;
      assert m.keys[i] in m.entries;
    }
    forall k | k in m.entries ensures m.entries[k].userId in users {
      var i :| 0 <= i < |m.keys| && m.keys[i] == k;
      assert vs[i].userId == m.entries[k].userId;
    }
  }

  /** Deleting a set of present keys shrinks the map by the size of that set. */
  lemma RemoveKeysCardinality<V>(m: map<string, V>, ks: set<string>)
    requires ks <= m.Keys
    ensures |m - ks| == |m| - |ks|
  {
    assert (m - ks).Keys == m.Keys - ks;
    assert m.Keys == (m.Keys - ks) + ks;
  }

  /** The keys of the records created strictly before `cutoff`. */
  ghost function StaleKeys(m: map<string, Screenshot>, cutoff: int): set<string> {
    set k | k in m && CreatedBefore(m[k], cutoff)
  }

  /** The records a cleanup with this cutoff keeps. */
  ghost function Kept(m: map<string, Screenshot>, cutoff: int): map<string, Screenshot> {
    map k | k in m && !CreatedBefore(m[k], cutoff) :: m[k]
  }

  lemma KeptIsRemoval(m: map<string, Screenshot>, cutoff: int)
    ensures Kept(m, cutoff) == m - StaleKeys(m, cutoff)
    ensures |Kept(m, cutoff)| == |m| - |StaleKeys(m, cutoff)|
  {
    RemoveKeysCardinality(m, StaleKeys(m, cutoff));
  }

  /** The filter over the key order lists each stale key exactly once. */
  lemma StaleKeysListed(m: InsertionMap<Screenshot>, cutoff: int, toDelete: seq<string>)
    requires m.Valid()
    requires toDelete == Filter(m.keys, (k: string) => k in m.entries && CreatedBefore(m.entries[k], cutoff))
    ensures Distinct(toDelete) && Elements(toDelete) == StaleKeys(m.entries, cutoff)
    ensures |toDelete| == |StaleKeys(m.entries, cutoff)|
  {
    DistinctCardinality(toDelete);
  }

  /** Deleting one more listed key removes it from what is left. */
  lemma DeleteOneMore<V>(m: map<string, V>, keys: seq<string>, i: nat)
    requires i < |keys|
    ensures m - Elements(keys[..i + 1]) == (m - Elements(keys[..i])) - {keys[i]}
  {
    ElementsSnoc(keys, i);
  }

  /** Deleting the next listed key leaves the original keys not listed so far, in order. */
  lemma DeleteKeepsOrder<V>(m: InsertionMap<V>, ks: seq<string>, keys: seq<string>, i: nat)
    requires m.Valid() && Distinct(ks) && i < |keys|
    requires m.keys == Filter(ks, NotIn(Elements(keys[..i])))
    ensures m.Delete(keys[i]).keys == Filter(ks, NotIn(Elements(keys[..i + 1])))
  {
    var gone, k := Elements(keys[..i]), keys[i];
    ElementsSnoc(keys, i);
    RemoveFromFiltered(ks, gone, k);
    assert m.Delete(k).keys == RemoveKey(m.keys, k);
  }

  lemma ElementsSnoc(keys: seq<string>, i: nat)
    requires i < |keys|
    ensures Elements(keys[..i + 1]) == Elements(keys[..i]) + {keys[i]}
  {
    assert keys[..i + 1] == keys[..i] + [keys[i]];
  }

  class VercelStorage {
    var screenshots: InsertionMap<Screenshot>
    var queueItems: InsertionMap<QueueItem>

    /** Both maps are well formed, and every queue item is stored under its own id. */
    ghost predicate Valid()
      reads this
    {
      && screenshots.Valid()
      && queueItems.Valid()
      && (forall k :: k in queueItems.entries ==> queueItems.entries[k].id == k)
    }

    /** `s` is one of the stored screenshot records. */
    ghost predicate Stored(s: Screenshot)
      reads this
    {
      exists k :: k in screenshots.entries && screenshots.entries[k] == s
    }

    /** `q` is one of the stored queue items. */
    ghost predicate StoredItem(q: QueueItem)
      reads this
    {
      exists k :: k in queueItems.entries && queueItems.entries[k] == q
    }

    constructor ()
      ensures Valid()
      ensures screenshots.entries == map[] && queueItems.entries == map[]
    {
      screenshots := InsertionMap.Empty();
      queueItems := InsertionMap.Empty();
    }

    /** `getScreenshot(id)`: the record stored under `id`; `None` stands for `undefined`. */
    function GetScreenshot(id: string): (r: Option<Screenshot>)
      reads this
      ensures r.Some? <==> id in screenshots.entries
      ensures r.Some? ==> r.value == screenshots.entries[id]
    {
      screenshots.Get(id)
    }

    /**
     * `getScreenshotsByUserId(userId)`: the records whose owner is `userId`, each as
     * often as it is stored and in the order their keys were inserted.
     */
    function GetScreenshotsByUserId(userId: string): (r: seq<Screenshot>)
      reads this
      requires Valid()
      ensures forall s :: s in r <==> Stored(s) && s.userId == Some(userId)
      ensures forall s :: multiset(r)[s] == if s.userId == Some(userId) then multiset(screenshots.Values())[s] else 0
      ensures IsSubsequence(r, screenshots.Values())
      ensures |r| <= |screenshots.entries|
    {
      var vs := screenshots.Values();
      forall s ensures s in vs <==> Stored(s) {
        ValuesAreEntries(screenshots, s);
      }
      SizeIsCardinality(screenshots);
      var owned := (s: Screenshot) => s.userId == Some(userId);
      FilterCount(vs, owned);
      FilterIsSubsequence(vs, owned);
      Filter(vs, owned)
    }

    /**
     * `getRecentScreenshots(hours)`: the records created strictly after the cutoff,
     * newest first, cut to the first ten.
     */
    function GetRecentScreenshots(now: int, hours: int): (r: seq<Screenshot>)
      reads this
      requires Valid()
      ensures |r| == Min(|Filter(screenshots.Values(), Recent(Cutoff(now, hours)))|, RecentLimit)
      ensures multiset(r) <= multiset(screenshots.Values())
      ensures forall s :: s in r ==> Stored(s) && CreatedAfter(s, Cutoff(now, hours))
      ensures forall i, j :: 0 <= i < j < |r| ==> r[i].createdAt.GetOr(0) >= r[j].createdAt.GetOr(0)
      ensures forall s :: Stored(s) && CreatedAfter(s, Cutoff(now, hours)) && s !in r ==>
                |r| == RecentLimit && forall x :: x in r ==> x.createdAt.GetOr(0) >= s.createdAt.GetOr(0)
      ensures forall t :: Filter(r, KeyIs(NewestFirstKey, t)) <=
                            Filter(Filter(screenshots.Values(), Recent(Cutoff(now, hours))), KeyIs(NewestFirstKey, t))
    {
      var cutoff := Cutoff(now, hours);
      var vs := screenshots.Values();
      forall s ensures s in vs <==> Stored(s) {
        ValuesAreEntries(screenshots, s);
      }
      var recent := Recent(cutoff);
      FilterSubMultiset(vs, recent);
      NewestFirst(Filter(vs, recent))
    }

    /** `getQueueItems()`: every stored item, ordered by numeric position. */
    function GetQueueItems(): (r: seq<QueueItem>)
      reads this
      requires Valid()
      ensures SortedBy(r, PositionKey)
      ensures multiset(r) == multiset(queueItems.Values())
      ensures forall p :: Filter(r, KeyIs(PositionKey, p)) == Filter(queueItems.Values(), KeyIs(PositionKey, p))
      ensures |r| == |queueItems.entries|
      ensures forall q :: q in r <==> StoredItem(q)
    {
      var vs := queueItems.Values();
      forall q ensures q in vs <==> StoredItem(q) {
        ValuesAreEntries(queueItems, q);
      }
      SizeIsCardinality(queueItems);
      var r := SortBy(vs, PositionKey);
      assert |r| == |multiset(r)| == |vs|;
      forall q ensures q in r <==> q in vs {
        assert q in r <==> q in multiset(r);
      }
      r
    }

    /**
     * `getQueuePosition(screenshotId)`: the 1-based place of the first item for
     * `screenshotId` in position order, or 0 when there is none.
     */
    function GetQueuePosition(screenshotId: string): (r: nat)
      reads this
      requires Valid()
      ensures r <= |GetQueueItems()|
      ensures r == 0 <==> forall q :: StoredItem(q) ==> q.screenshotId != screenshotId
      ensures r > 0 ==> GetQueueItems()[r - 1].screenshotId == screenshotId
      ensures r > 0 ==> forall j :: 0 <= j < r - 1 ==> GetQueueItems()[j].screenshotId != screenshotId
    {
      var items := GetQueueItems();
      match FindIndex(items, (q: QueueItem) => q.screenshotId == screenshotId)
      case None =>
        NoItemFor(items, screenshotId);
        0
      case Some(i) =>
        ItemFor(items, screenshotId, i);
        i + 1
    }

    /** A listed item for `id` is a stored one. */
    lemma ItemFor(items: seq<QueueItem>, id: string, i: nat)
      requires forall q :: q in items <==> StoredItem(q)
      requires i < |items| && items[i].screenshotId == id
      ensures exists q :: StoredItem(q) && q.screenshotId == id
    {
      assert StoredItem(items[i]);
    }

    /** When no listed item is for `id`, no stored item is. */
    lemma NoItemFor(items: seq<QueueItem>, id: string)
      requires forall q :: q in items <==> StoredItem(q)
      requires forall j :: 0 <= j < |items| ==> items[j].screenshotId != id
      ensures forall q :: StoredItem(q) ==> q.screenshotId != id
    {
    }

    /**
     * `getStats()`: the number of records, the share of them completed (as a
     * percentage, before `toFixed(1)`), the constant average time and the number of
     * distinct owners.
     */
    function GetStats(): (st: Stats)
      reads this
      requires Valid()
      ensures st.total == |screenshots.entries|
      ensures st.activeUsers == |set k | k in screenshots.entries :: screenshots.entries[k].userId|
      ensures st.activeUsers <= st.total
      ensures st.total > 0 ==> st.activeUsers >= 1
      ensures st.total == 0 ==> st.successRate == 0.0
      ensures 0.0 <= st.successRate <= 100.0
      ensures st.avgTime == AverageMinutes
    {
      var vs := screenshots.Values();
      SizeIsCardinality(screenshots);
      var total := |vs|;
      var completed := |Filter(vs, (s: Screenshot) => s.status == Completed)|;
      var users := DistinctUsers(vs);
      UsersOfValues(screenshots);
      PercentageBounds(completed, total);
      var rate := if total > 0 then (completed as real / total as real) * 100.0 else 0.0;
      Stats(total, rate, AverageMinutes, |users|)
    }

    /**
     * `createScreenshot(insert)`: a pending record with no title, paths or error,
     * stored under the new `id` and created at `now`.
     */
    method CreateScreenshot(insert: InsertScreenshot, id: string, now: int) returns (r: Screenshot)
      requires Valid()
      modifies this
      ensures Valid()
      ensures r == Screenshot(id, insert.url, None, None, None, Pending, None, Some(now), insert.userId)
      ensures screenshots == old(screenshots).Set(id, r)
      ensures queueItems == old(queueItems)
      ensures GetScreenshot(id) == Some(r)
      ensures id !in old(screenshots.entries) ==> screenshots.Size() == old(screenshots.Size()) + 1
    {
      r := Screenshot(id, insert.url, None, None, None, Pending, None, Some(now), insert.userId);
      screenshots := screenshots.Set(id, r);
    }

    /**
     * `updateScreenshot(id, updates)`: merges `updates` into the stored record;
     * on an unknown id nothing changes and the result is `undefined`.
     */
    method UpdateScreenshot(id: string, updates: ScreenshotUpdate) returns (r: Option<Screenshot>)
      requires Valid()
      modifies this
      ensures Valid()
      ensures id !in old(screenshots.entries) ==> r == None && screenshots == old(screenshots)
      ensures id in old(screenshots.entries) ==>
                && r == Some(Apply(old(screenshots.entries[id]), updates))
                && screenshots.entries == old(screenshots.entries)[id := r.value]
                && screenshots.keys == old(screenshots.keys)
      ensures queueItems == old(queueItems)
    {
      match screenshots.Get(id)
      case None =>
        r := None;
      case Some(existing) =>
        var updated := Apply(existing, updates);
        screenshots := screenshots.Set(id, updated);
        r := Some(updated);
    }

    /** `deleteScreenshot(id)`: whether the record was there; afterwards it is not. */
    method DeleteScreenshot(id: string) returns (existed: bool)
      requires Valid()
      modifies this
      ensures Valid()
      ensures existed <==> id in old(screenshots.entries)
      ensures screenshots == old(screenshots).Delete(id)
      ensures queueItems == old(queueItems)
    {
      existed := id in screenshots.entries;
      screenshots := screenshots.Delete(id);
    }

    /** `createQueueItem(insert)`: stores the item under the new `id`, created at `now`. */
    method CreateQueueItem(insert: InsertQueueItem, id: string, now: int) returns (item: QueueItem)
      requires Valid()
      modifies this
      ensures Valid()
      ensures item == QueueItem(id, insert.screenshotId, insert.position, insert.estimatedTime, Some(now))
      ensures queueItems == old(queueItems).Set(id, item)
      ensures screenshots == old(screenshots)
    {
      item := QueueItem(id, insert.screenshotId, insert.position, insert.estimatedTime, Some(now));
      queueItems := queueItems.Set(id, item);
    }

    /** `removeQueueItem(id)`: whether the item was there; afterwards it is not. */
    method RemoveQueueItem(id: string) returns (existed: bool)
      requires Valid()
      modifies this
      ensures Valid()
      ensures existed <==> id in old(queueItems.entries)
      ensures queueItems == old(queueItems).Delete(id)
      ensures screenshots == old(screenshots)
    {
      existed := id in queueItems.entries;
      queueItems := queueItems.Delete(id);
    }

    /** `keys.forEach(id => this.screenshots.delete(id))` */
    method DeleteAll(keys: seq<string>)
      requires screenshots.Valid()
      modifies this`screenshots
      ensures screenshots.Valid()
      ensures screenshots.entries == old(screenshots.entries) - Elements(keys)
      ensures screenshots.keys == Filter(old(screenshots.keys), NotIn(Elements(keys)))
    {
      var m := screenshots;
      ghost var ks := m.keys;
      FilterKeepsAll(ks, NotIn(Elements(keys[..0])));
      var i := 0;
      while i < |keys|
        invariant 0 <= i <= |keys|
        invariant m.Valid()
        invariant m.entries == old(screenshots.entries) - Elements(keys[..i])
        invariant m.keys == Filter(ks, NotIn(Elements(keys[..i])))
      {
        DeleteOneMore(old(screenshots.entries), keys, i);
        DeleteKeepsOrder(m, ks, keys, i);
        m := m.Delete(keys[i]);
        i := i + 1;
      }
      assert keys[..i] == keys;
      screenshots := m;
    }

    /**
     * `cleanupOldScreenshots(hours)`: deletes exactly the records created strictly
     * before the cutoff and returns how many there were. Records at the cutoff, or
     * without a creation time, stay.
     */
    method CleanupOldScreenshots(now: int, hours: int) returns (count: nat)
      requires Valid()
      modifies this
      ensures Valid()
      ensures screenshots.entries == Kept(old(screenshots.entries), Cutoff(now, hours))
      ensures count == |StaleKeys(old(screenshots.entries), Cutoff(now, hours))|
      ensures count == |old(screenshots.entries)| - |screenshots.entries|
      ensures screenshots.keys == Filter(old(screenshots.keys), NotIn(StaleKeys(old(screenshots.entries), Cutoff(now, hours))))
      ensures queueItems == old(queueItems)
    {
      var cutoff := Cutoff(now, hours);
      var m := screenshots;
      var toDelete := Filter(m.keys, (k: string) => k in m.entries && CreatedBefore(m.entries[k], cutoff));
      StaleKeysListed(m, cutoff, toDelete);
      DeleteAll(toDelete);
      count := |toDelete|;
      KeptIsRemoval(m.entries, cutoff);
    }
  }
}
