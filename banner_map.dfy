/**
 * `useHandleAppBannerMap`: the banner list published after the time and
 * platform checks (no operating-system check), the banner impression history
 * with its batch update, and the banners grouped by position after the
 * balance/earning condition filter.
 */
module BannerContent {
  import opened Seqs
  import opened StaticContent
  import opened ContentHistory

  /** The platform filter of the banner hook: the banner targets 'mobile'. */
  predicate TargetsMobile(x: ContentItem) {
    "mobile" in x.info.platforms
  }

  /**
   * `getFilteredAppBannerByTimeAndPlatform`: the banners passing the external
   * time check whose platforms include 'mobile', in ascending priority; every
   * such banner is kept as many times as it occurs, and nothing else.
   */
  function ActiveBanners(data: seq<ContentItem>, existTime: Info -> bool): (r: seq<ContentItem>)
    ensures SortedByPriority(r)
    ensures forall x :: multiset(r)[x] == (if existTime(x.info) && "mobile" in x.info.platforms then multiset(data)[x] else 0)
  {
    var active := Filter(data, ExistsNow(existTime));
    var onMobile := Filter(active, TargetsMobile);
    FilterCounts(data, ExistsNow(existTime));
    FilterCounts(active, TargetsMobile);
    assert forall x :: multiset(onMobile)[x] == (if existTime(x.info) && "mobile" in x.info.platforms then multiset(data)[x] else 0) by {
      forall x ensures multiset(onMobile)[x] == (if existTime(x.info) && "mobile" in x.info.platforms then multiset(data)[x] else 0) {
        assert ExistsNow(existTime)(x) == existTime(x.info);
        assert TargetsMobile(x) == ("mobile" in x.info.platforms);
      }
    }
    SortByPriority(onMobile)
  }

  /** Banners of equal priority are published in their input order. */
  lemma ActiveBannersStable(data: seq<ContentItem>, existTime: Info -> bool, p: int)
    ensures WithPriority(ActiveBanners(data, existTime), p) ==
      Filter(Filter(WithPriority(data, p), ExistsNow(existTime)), TargetsMobile)
  {
    var active := Filter(data, ExistsNow(existTime));
    SortByPriorityStable(Filter(active, TargetsMobile), p);
    WithPriorityFilter(active, TargetsMobile, p);
    WithPriorityFilter(data, ExistsNow(existTime), p);
  }

  /** Every published banner has a history entry once `data` is seeded. */
  lemma PublishedAreSeeded(data: seq<ContentItem>, existTime: Info -> bool, seedBase: History)
    ensures forall x :: x in ActiveBanners(data, existTime) ==> ItemKey(x) in Seeded(data, seedBase)
  {
    forall x | x in ActiveBanners(data, existTime) ensures ItemKey(x) in Seeded(data, seedBase) {
      assert multiset(ActiveBanners(data, existTime))[x] > 0;
      SeededCoversItems(data, seedBase, x);
    }
  }

  /**
   * The body of `updateBannerHistoryMap`: a loop writing, for each listed key,
   * one more show at `now` into a fresh `result` object, each write reading the
   * count from `h` and not from `result`; then `{ ...h, ...result }`. A key
   * listed twice is therefore counted once. Reading `h[key].showTimes` throws
   * when a listed key has no entry.
   */
  method RecordShownBatch(h: History, ids: seq<string>, now: int) returns (r: History)
    requires forall k :: k in ids ==> k in h
    ensures r.Keys == h.Keys
    ensures forall k :: k in ids ==> r[k] == HistoryEntry(now, h[k].showTimes + 1)
    ensures forall k :: k in h && k !in ids ==> r[k] == h[k]
    ensures |ids| == 1 ==> r == RecordShow(h, ids[0], now)
  {
    var result: History := map[];
    for i := 0 to |ids|
      invariant result.Keys == set k | k in ids[..i]
      invariant forall k :: k in result ==> k in h && result[k] == HistoryEntry(now, h[k].showTimes + 1)
    {
      assert ids[..i + 1] == ids[..i] + [ids[i]];
      result := result[ids[i] := HistoryEntry(now, h[ids[i]].showTimes + 1)];
    }
    assert ids[..|ids|] == ids;
    r := h + result;
  }

  /** The banner part of the store, and the hook's three members. */
  class BannerStore {
    /** The published banner list (`updateAppBannerData`). */
    var contentList: seq<ContentItem>
    /** The banner impression history (`updateBannerHistoryData`). */
    var historyMap: History

    /**
     * What the setters establish and the history update keeps: the published
     * list is in ascending priority, show counts are never negative, and every published banner has a history entry.
     */
    predicate Valid()
      reads this
    {
      && SortedByPriority(contentList)
      && WellFormed(historyMap)
      && forall x :: x in contentList ==> ItemKey(x) in historyMap
    }

    constructor ()
      ensures contentList == [] && historyMap == map[]
      ensures Valid()
    {
      contentList := [];
      historyMap := map[];
    }

    /**
     * `setAppBannerData`: publishes the active banners in priority order, and
     * seeds the history for every banner in `data` over `seedBase`, the history
     * map the dependency-free seeding callback kept from its creation.
     */
    method SetAppBannerData(data: seq<ContentItem>, existTime: Info -> bool, seedBase: History)
      requires WellFormed(seedBase)
      modifies this
      ensures contentList == ActiveBanners(data, existTime)
      ensures historyMap == Seeded(data, seedBase)
      ensures forall x :: x in contentList ==> ItemKey(x) in historyMap
      ensures Valid()
    {
      contentList := ActiveBanners(data, existTime);
      var newData := SeedNewEntries(data);
      historyMap := newData + seedBase;
      SeededWellFormed(data, seedBase);
      PublishedAreSeeded(data, existTime, seedBase);
    }

    /** `updateBannerHistoryMap`: one more show of every listed key, at `now`. */
    method UpdateBannerHistoryMap(ids: seq<string>, now: int)
      requires forall k :: k in ids ==> k in historyMap
      requires Valid()
      modifies this`historyMap
      ensures historyMap.Keys == old(historyMap).Keys
      ensures forall k :: k in ids ==> historyMap[k] == HistoryEntry(now, old(historyMap)[k].showTimes + 1)
      ensures forall k :: k in old(historyMap) && k !in ids ==> historyMap[k] == old(historyMap)[k]
      ensures Valid()
    {
      historyMap := RecordShownBatch(historyMap, ids, now);
    }

    /** `appBannerMap`: the published banners passing their conditions, by position. */
    method AppBannerMap(env: ConditionEnv) returns (m: map<string, seq<ContentItem>>)
      requires Valid()
      ensures m == Buckets(ConditionFilter(contentList, env))
      ensures forall pos, x :: pos in m && x in m[pos] ==> x in contentList && x.position == pos
      ensures forall pos :: pos in m ==> SortedByPriority(m[pos])
    {
      var filtered := ConditionFilter(contentList, env);
      m := BucketByPosition(filtered);
      SubsequenceSorted(filtered, contentList);
      forall pos | pos in m ensures (forall x :: x in m[pos] ==> x in contentList && x.position == pos) && SortedByPriority(m[pos]) {
        BucketsContents(filtered, pos);
        SubsequenceSorted(m[pos], filtered);
      }
    }
  }
}
