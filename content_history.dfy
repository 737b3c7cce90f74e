/**
 * The impression history the three static-content hooks keep: one entry per
 * `${position}-${id}` key recording when the item was last shown and how many
 * times it has been shown.
 */
module ContentHistory {
  import opened StaticContent

  /** `PopupHistoryData`. */
  datatype HistoryEntry = HistoryEntry(lastShowTime: int, showTimes: int)

  /** `Record<string, PopupHistoryData>`. */
  type History = map<string, HistoryEntry>

  /** The entry seeded for an item seen for the first time. */
  const Unseen := HistoryEntry(0, 0)

  /** The template literal `${position}-${id}`. */
  function Key(position: string, id: string): string {
    position + "-" + id
  }

  function ItemKey(x: ContentItem): string {
    Key(x.position, x.id)
  }

  /** The keys the seeding `reduce` writes for `data`. */
  function SeedKeys(data: seq<ContentItem>): set<string> {
    set x | x in data :: ItemKey(x)
  }

  /** Show counts are never negative. */
  predicate WellFormed(h: History) {
    forall k :: k in h ==> h[k].showTimes >= 0
  }

  /**
   * `{ ...newData, ...base }`: `Unseen` under every key of `data`, with every
   * entry of `base` taking precedence.
   */
  function Seeded(data: seq<ContentItem>, base: History): (r: History)
    ensures r.Keys == SeedKeys(data) + base.Keys
    ensures forall k :: k in base ==> r[k] == base[k]
    ensures forall k :: k in r && k !in base ==> r[k] == Unseen
  {
    FreshEntries(data) + base
  }

  function FreshEntries(data: seq<ContentItem>): History {
    map k | k in SeedKeys(data) :: Unseen
  }

  /**
   * The seeding `reduce` with `Object.assign`: one pass over the items, writing
   * `Unseen` under each item's key (a key met twice is written twice).
   */
  method SeedNewEntries(data: seq<ContentItem>) returns (m: History)
    ensures m.Keys == SeedKeys(data)
    ensures forall k :: k in m ==> m[k] == Unseen
    ensures m == FreshEntries(data)
  {
    m := map[];
    for i := 0 to |data|
      invariant m.Keys == SeedKeys(data[..i])
      invariant forall k :: k in m ==> m[k] == Unseen
    {
      assert data[..i + 1] == data[..i] + [data[i]];
      SeedKeysAppend(data[..i], data[i]);
      m := m[ItemKey(data[i]) := Unseen];
    }
    assert data[..|data|] == data;
    assert m.Keys == FreshEntries(data).Keys;
  }

  lemma SeedKeysAppend(data: seq<ContentItem>, x: ContentItem)
    ensures SeedKeys(data + [x]) == SeedKeys(data) + {ItemKey(x)}
  {
    forall y | y in data + [x] ensures y in data || y == x { }
    forall y | y in data ensures y in data + [x] { }
    assert x in data + [x];
  }

  /** Seeding a second time with the same items changes nothing. */
  lemma SeededIdempotent(data: seq<ContentItem>, h: History)
    ensures Seeded(data, Seeded(data, h)) == Seeded(data, h)
  {
    var once := Seeded(data, h);
    var twice := Seeded(data, once);
    assert twice.Keys == once.Keys;
    forall k | k in twice ensures twice[k] == once[k] { }
  }

  /** Every seeded item can have its show recorded afterwards. */
  lemma SeededCoversItems(data: seq<ContentItem>, h: History, x: ContentItem)
    requires x in data
    ensures ItemKey(x) in Seeded(data, h)
  {
    assert ItemKey(x) in SeedKeys(data);
  }

  /**
   * `{ ...h, [id]: { lastShowTime: now, showTimes: h[id].showTimes + 1 } }`;
   * reading `h[id].showTimes` throws when `id` has no entry.
   */
  function RecordShow(h: History, id: string, now: int): (r: History)
    requires id in h
    ensures r.Keys == h.Keys
    ensures r[id].showTimes == h[id].showTimes + 1 && r[id].lastShowTime == now
    ensures forall k :: k in h && k != id ==> r[k] == h[k]
  {
    h[id := HistoryEntry(now, h[id].showTimes + 1)]
  }

  /**
   * Seeding over a history that already holds a recorded show keeps it: the
   * stored entry wins the merge. (Seeding from a base captured before the show
   * does not; see `StaleBaseDropsShow`.)
   */
  lemma SeedingKeepsRecordedShow(data: seq<ContentItem>, h: History, id: string, now: int)
    requires id in h
    ensures Seeded(data, RecordShow(h, id, now))[id] == HistoryEntry(now, h[id].showTimes + 1)
  {
  }

  /**
   * Seeding again from a base that predates a recorded show puts that item back
   * at `Unseen`: the show recorded over the first seeding is lost.
   */
  lemma StaleBaseDropsShow(data: seq<ContentItem>, base: History, x: ContentItem, now: int)
    requires x in data && ItemKey(x) !in base
    ensures RecordShow(Seeded(data, base), ItemKey(x), now)[ItemKey(x)].showTimes == 1
    ensures Seeded(data, base)[ItemKey(x)] == Unseen
  {
    SeededCoversItems(data, base, x);
  }

  /** Seeding one "home" item over an empty history writes one unseen entry under "home-1". */
  lemma SeedOneItemExample(x: ContentItem)
    requires x.position == "home" && x.id == "1"
    ensures Seeded([x], map[]) == map["home-1" := Unseen]
  {
    assert ItemKey(x) == "home-1";
    assert SeedKeys([x]) == {"home-1"};
  }

  /** Seeding keeps every show count non-negative. */
  lemma SeededWellFormed(data: seq<ContentItem>, h: History)
    requires WellFormed(h)
    ensures WellFormed(Seeded(data, h))
  {
  }

  /** Recording a show keeps every show count non-negative. */
  lemma RecordShowWellFormed(h: History, id: string, now: int)
    requires WellFormed(h) && id in h
    ensures WellFormed(RecordShow(h, id, now))
  {
  }
}
