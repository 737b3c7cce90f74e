/**
 * `useHandleAppPopupMap`: the popup list published after the time, platform
 * and operating-system checks, the popup impression history, and the popups
 * grouped by position after the balance/earning condition filter.
 */
module PopupContent {
  import opened Wrappers
  import opened Seqs
  import opened StaticContent
  import opened ContentHistory

  /** `String.prototype.toLowerCase` on one character (ASCII letters only). */
  function LowerChar(c: char): char {
    if 'A' <= c <= 'Z' then (c as int + 32) as char else c
  }

  /** `toLowerCase`: every ASCII capital becomes its small letter, nothing else moves. */
  function ToLowerCase(s: string): (r: string)
    ensures |r| == |s|
    ensures forall i :: 0 <= i < |r| ==> !('A' <= r[i] <= 'Z')
    ensures forall i :: 0 <= i < |s| && 'A' <= s[i] <= 'Z' ==> r[i] == (s[i] as int + 32) as char
    ensures forall i :: 0 <= i < |s| && !('A' <= s[i] <= 'Z') ==> r[i] == s[i]
  {
    seq(|s|, i requires 0 <= i < |s| => LowerChar(s[i]))
  }

  /** Lowering twice is lowering once. */
  lemma ToLowerCaseIdempotent(s: string)
    ensures ToLowerCase(ToLowerCase(s)) == ToLowerCase(s)
  {
  }

  /** `if (info.os)`: an operating system is named when the field holds a non-empty string. */
  predicate OsIsSet(info: Info) {
    info.os.Some? && info.os.value != ""
  }

  /**
   * The platform filter of the popup hook: the popup targets 'mobile' and, when
   * it names an operating system, that name in lower case is the runtime OS.
   */
  function MatchesPlatform(info: Info, runtimeOs: string): (b: bool)
    ensures b <==> "mobile" in info.platforms && (OsIsSet(info) ==> ToLowerCase(info.os.value) == runtimeOs)
    ensures !OsIsSet(info) ==> (b <==> "mobile" in info.platforms)
  {
    if OsIsSet(info) then
      "mobile" in info.platforms && ToLowerCase(info.os.value) == runtimeOs
    else
      "mobile" in info.platforms
  }

  function OnThisPlatform(runtimeOs: string): ContentItem -> bool {
    (x: ContentItem) => MatchesPlatform(x.info, runtimeOs)
  }

  /**
   * `getFilteredAppPopupByTimeAndPlatform`: the popups passing the external time
   * check and the platform check, in ascending priority. Every such popup is
   * kept as many times as it occurs, and nothing else.
   */
  function ActivePopups(data: seq<ContentItem>, existTime: Info -> bool, runtimeOs: string): (r: seq<ContentItem>)
    ensures SortedByPriority(r)
    ensures forall x :: multiset(r)[x] == (if existTime(x.info) && MatchesPlatform(x.info, runtimeOs) then multiset(data)[x] else 0)
  {
    var active := Filter(data, ExistsNow(existTime));
    var onPlatform := Filter(active, OnThisPlatform(runtimeOs));
    FilterCounts(data, ExistsNow(existTime));
    FilterCounts(active, OnThisPlatform(runtimeOs));
    assert forall x :: multiset(onPlatform)[x] == (if existTime(x.info) && MatchesPlatform(x.info, runtimeOs) then multiset(data)[x] else 0) by {
      forall x ensures multiset(onPlatform)[x] ==
        (if existTime(x.info) && MatchesPlatform(x.info, runtimeOs) then multiset(data)[x] else 0) {
        assert ExistsNow(existTime)(x) == existTime(x.info);
        assert OnThisPlatform(runtimeOs)(x) == MatchesPlatform(x.info, runtimeOs);
      }
    }
    SortByPriority(onPlatform)
  }

  /**
   * Popups of equal priority are published in their input order: for each
   * priority, the published popups of that priority are exactly the input's
   * popups of that priority that pass both checks, in input order.
   */
  lemma ActivePopupsStable(data: seq<ContentItem>, existTime: Info -> bool, runtimeOs: string, p: int)
    ensures WithPriority(ActivePopups(data, existTime, runtimeOs), p) ==
      Filter(Filter(WithPriority(data, p), ExistsNow(existTime)), OnThisPlatform(runtimeOs))
  {
    var active := Filter(data, ExistsNow(existTime));
    var onPlatform := Filter(active, OnThisPlatform(runtimeOs));
    SortByPriorityStable(onPlatform, p);
    WithPriorityFilter(active, OnThisPlatform(runtimeOs), p);
    WithPriorityFilter(data, ExistsNow(existTime), p);
  }

  /** Every published popup has a history entry once `data` is seeded. */
  lemma PublishedAreSeeded(data: seq<ContentItem>, existTime: Info -> bool, runtimeOs: string, seedBase: History)
    ensures forall x :: x in ActivePopups(data, existTime, runtimeOs) ==> ItemKey(x) in Seeded(data, seedBase)
  {
    forall x | x in ActivePopups(data, existTime, runtimeOs) ensures ItemKey(x) in Seeded(data, seedBase) {
      assert multiset(ActivePopups(data, existTime, runtimeOs))[x] > 0;
      SeededCoversItems(data, seedBase, x);
    }
  }

  /**
   * Two popups for "home" with no conditions, priorities 2 and 1, both active on
   * this device: the grouped map lists the priority-1 popup first.
   */
  lemma HomeExample(env: ConditionEnv, runtimeOs: string)
    ensures var info := Info(["mobile"], None, map[]);
      var item1 := ContentItem("1", "home", 2, info, Conditions(Absent, Absent, 0));
      var item2 := ContentItem("2", "home", 1, info, Conditions(Absent, Absent, 0));
      Buckets(ConditionFilter(ActivePopups([item1, item2], (i: Info) => true, runtimeOs), env)) == map["home" := [item2, item1]]
  {
    var info := Info(["mobile"], None, map[]);
    var item1 := ContentItem("1", "home", 2, info, Conditions(Absent, Absent, 0));
    var item2 := ContentItem("2", "home", 1, info, Conditions(Absent, Absent, 0));
    HomeExamplePublished(item1, item2, runtimeOs);
    HomeExampleGrouped(item1, item2, env);
  }

  /** Both popups are active and mobile-only, so they are published by priority. */
  lemma HomeExamplePublished(item1: ContentItem, item2: ContentItem, runtimeOs: string)
    requires item1.info == item2.info == Info(["mobile"], None, map[])
    requires item1.priority == 2 && item2.priority == 1
    ensures ActivePopups([item1, item2], (i: Info) => true, runtimeOs) == [item2, item1]
  {
    var data := [item1, item2];
    var existTime := (i: Info) => true;
    assert MatchesPlatform(item1.info, runtimeOs);
    FilterAllPass(data, ExistsNow(existTime));
    FilterAllPass(data, OnThisPlatform(runtimeOs));
    assert data[1..] == [item2] && [item2][1..] == [];
    assert SortByPriority([item2]) == [item2];
    assert InsertByPriority(item1, [item2]) == [item2, item1];
  }

  /** Condition-free popups of one position all land, in order, in that position's list. */
  lemma HomeExampleGrouped(item1: ContentItem, item2: ContentItem, env: ConditionEnv)
    requires item1.position == item2.position == "home"
    requires item1.conditions == item2.conditions == Conditions(Absent, Absent, 0)
    ensures Buckets(ConditionFilter([item2, item1], env)) == map["home" := [item2, item1]]
  {
    var published := [item2, item1];
    FilterAllPass(published, PassesConditions(env));
    assert ConditionFilter(published, env) == published;
    assert Positions(published) == {"home"} by {
      assert item2 in published;
    }
    FilterAllPass(published, PositionIs("home"));
    assert InPosition(published, "home") == published;
  }

  /** The popup part of the store, and the hook's three members. */
  class PopupStore {
    /** The published popup list (`updateAppPopupData`). */
    var contentList: seq<ContentItem>
    /** The popup impression history (`updatePopupHistoryData`). */
    var historyMap: History

    /**
     * What the setters establish and the history update keeps: the published
     * list is in ascending priority, show counts are never negative, and every published popup has a history entry.
     */
    predicate Valid()
      reads this
    {
      && SortedByPriority(contentList)
      && WellFormed(historyMap)
      && forall x :: x in contentList ==> ItemKey(x) in historyMap
    }

    constructor ()
      ensures contentList == [] && historyMap == map[]
      ensures Valid()
    {
      contentList := [];
      historyMap := map[];
    }

    /**
     * `setAppPopupData`: publishes the active popups in priority order, and
     * seeds the history for every popup in `data`. `seedBase` is the history
     * map the seeding callback reads; declared with no dependencies, that
     * callback keeps the value it saw when it was created.
     */
    method SetAppPopupData(data: seq<ContentItem>, existTime: Info -> bool, runtimeOs: string, seedBase: History)
      requires WellFormed(seedBase)
      modifies this
      ensures contentList == ActivePopups(data, existTime, runtimeOs)
      ensures historyMap == Seeded(data, seedBase)
      ensures forall x :: x in contentList ==> ItemKey(x) in historyMap
      ensures Valid()
    {
      contentList := ActivePopups(data, existTime, runtimeOs);
      var newData := SeedNewEntries(data);
      historyMap := newData + seedBase;
      SeededWellFormed(data, seedBase);
      PublishedAreSeeded(data, existTime, runtimeOs, seedBase);
    }

    /** `updatePopupHistoryMap`: one more show of `id`, shown at `now`. */
    method UpdatePopupHistoryMap(id: string, now: int)
      requires id in historyMap
      requires Valid()
      modifies this`historyMap
      ensures historyMap == RecordShow(old(historyMap), id, now)
      ensures historyMap[id].showTimes == old(historyMap)[id].showTimes + 1
      ensures Valid()
    {
      RecordShowWellFormed(historyMap, id, now);
      historyMap := RecordShow(historyMap, id, now);
    }

    /** `appPopupMap`: the published popups passing their conditions, by position. */
    method AppPopupMap(env: ConditionEnv) returns (m: map<string, seq<ContentItem>>)
      requires Valid()
      ensures m == Buckets(ConditionFilter(contentList, env))
      ensures forall pos, x :: pos in m && x in m[pos] ==> x in contentList && x.position == pos
      ensures forall pos :: pos in m ==> SortedByPriority(m[pos])
    {
      var filtered := ConditionFilter(contentList, env);
      m := BucketByPosition(filtered);
      SubsequenceSorted(filtered, contentList);
      forall pos | pos in m ensures (forall x :: x in m[pos] ==> x in contentList && x.position == pos) && SortedByPriority(m[pos]) {
        BucketsContents(filtered, pos);
        SubsequenceSorted(m[pos], filtered);
      }
    }
  }
}
