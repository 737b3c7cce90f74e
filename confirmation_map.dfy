/**
 * `useHandleAppConfirmationMap`: the confirmation list, published as received,
 * the confirmation impression history, and the confirmations grouped by
 * position after the balance/earning condition filter.
 */
module ConfirmationContent {
  import opened StaticContent
  import opened ContentHistory

  /** The confirmation part of the store, and the hook's three members. */
  class ConfirmationStore {
    /** The published confirmation list (`updateAppConfirmationData`). */
    var contentList: seq<ContentItem>
    /** The confirmation impression history (`updateConfirmationHistoryData`). */
    var historyMap: History

    /**
     * What the setter establishes and the history update keeps: show counts are
     * never negative, and every published confirmation has a history entry. The list itself is kept in input order.
     */
    predicate Valid()
      reads this
    {
      && WellFormed(historyMap)
      && forall x :: x in contentList ==> ItemKey(x) in historyMap
    }

    constructor ()
      ensures contentList == [] && historyMap == map[]
      ensures Valid()
    {
      contentList := [];
      historyMap := map[];
    }

    /**
     * `setAppConfirmationData`: publishes `data` as it is (no time, platform or
     * priority processing), and seeds the history for every confirmation in
     * `data` over `seedBase`, the history map the dependency-free seeding
     * callback kept from its creation.
     */
    method SetAppConfirmationData(data: seq<ContentItem>, seedBase: History)
      requires WellFormed(seedBase)
      modifies this
      ensures contentList == data
      ensures historyMap == Seeded(data, seedBase)
      ensures forall x :: x in contentList ==> ItemKey(x) in historyMap
      ensures Valid()
    {
      contentList := data;
      var newData := SeedNewEntries(data);
      historyMap := newData + seedBase;
      SeededWellFormed(data, seedBase);
      forall x | x in contentList ensures ItemKey(x) in historyMap {
        SeededCoversItems(data, seedBase, x);
      }
    }

    /** `updateConfirmationHistoryMap`: one more show of `id`, shown at `now`. */
    method UpdateConfirmationHistoryMap(id: string, now: int)
      requires id in historyMap
      requires Valid()
      modifies this`historyMap
      ensures historyMap == RecordShow(old(historyMap), id, now)
      ensures historyMap[id].showTimes == old(historyMap)[id].showTimes + 1
      ensures Valid()
    {
      RecordShowWellFormed(historyMap, id, now);
      historyMap := RecordShow(historyMap, id, now);
    }

    /** `appConfirmationMap`: the confirmations passing their conditions, by position. */
    method AppConfirmationMap(env: ConditionEnv) returns (m: map<string, seq<ContentItem>>)
      ensures m == Buckets(ConditionFilter(contentList, env))
      ensures forall pos, x :: pos in m && x in m[pos] ==> x in contentList && x.position == pos
    {
      var filtered := ConditionFilter(contentList, env);
      m := BucketByPosition(filtered);
      forall pos, x | pos in m && x in m[pos] ensures x in contentList && x.position == pos {
        BucketsContents(filtered, pos);
      }
    }
  }
}
