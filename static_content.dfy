/**
 * The static-content items (popups, banners, confirmations) shared by the three
 * hooks under src/hooks/static-content/, and the stages the hooks have in common:
 * the balance/earning condition filter, the ascending-priority sort and the
 * grouping by display position.
 */
module StaticContent {
  import opened Wrappers
  import opened Seqs

  /** Condition and position payloads are read only by the external evaluators. */
  datatype BalanceCondition = BalanceCondition(fields: map<string, string>)
  datatype EarningCondition = EarningCondition(fields: map<string, string>)
  datatype YieldPosition = YieldPosition(fields: map<string, string>)

  /**
   * `info` of an item: the platforms it targets, the optional operating system,
   * and the remaining fields (time window, display limits) that only the
   * external time predicate reads.
   */
  datatype Info = Info(platforms: seq<string>, os: Option<string>, details: map<string, string>)

  /**
   * How one key of the `conditions` object reads: not an own key, an own key whose
   * value is falsy (`undefined`, `null`), or an array (every array is truthy, `[]` too).
   */
  datatype Field<T> = Absent | Falsy | Present(value: T)

  /** The `conditions` object: its two known keys, and how many other own keys it has. */
  datatype Conditions = Conditions(
    balance: Field<seq<BalanceCondition>>,
    earning: Field<seq<EarningCondition>>,
    otherKeys: nat)

  /** `Object.keys(conditions).length`. */
  function KeyCount(c: Conditions): nat {
    (if c.balance.Absent? then 0 else 1) + (if c.earning.Absent? then 0 else 1) + c.otherKeys
  }

  /** One popup, banner or confirmation. */
  datatype ContentItem = ContentItem(
    id: string,
    position: string,
    priority: int,
    info: Info,
    conditions: Conditions)

  /**
   * What the condition filter consults: the yield-position list and the two
   * external evaluators `checkBalanceCondition` and `checkEarningCondition`.
   */
  datatype ConditionEnv = ConditionEnv(
    yieldPositions: seq<YieldPosition>,
    checkBalance: seq<BalanceCondition> -> bool,
    checkEarning: (seq<YieldPosition>, seq<EarningCondition>) -> bool)

  /** The item filter applying the external time predicate `checkPopupExistTime` to `info`. */
  function ExistsNow(existTime: Info -> bool): ContentItem -> bool {
    (x: ContentItem) => existTime(x.info)
  }

  // ----- Condition filter -----

  /** `isPassBalanceCondition`: a missing or falsy balance condition counts as passed. */
  function BalancePass(c: Conditions, env: ConditionEnv): bool {
    match c.balance
    case Present(v) => env.checkBalance(v)
    case _ => true
  }

  /** `isPassEarningCondition`: a missing or falsy earning condition counts as passed. */
  function EarningPass(c: Conditions, env: ConditionEnv): bool {
    match c.earning
    case Present(v) => env.checkEarning(env.yieldPositions, v)
    case _ => true
  }

  /** The predicate the hooks pass to `filter` over their item list. */
  function ConditionPass(c: Conditions, env: ConditionEnv): (r: bool)
    ensures KeyCount(c) == 0 ==> r
    ensures !r <==>
      && c.balance.Present? && !env.checkBalance(c.balance.value)
      && c.earning.Present? && !env.checkEarning(env.yieldPositions, c.earning.value)
  {
    if KeyCount(c) != 0 then BalancePass(c, env) || EarningPass(c, env) else true
  }

  /** The test on empty `conditions` decides nothing: an empty object has no condition to fail. */
  lemma EmptinessTestRedundant(c: Conditions, env: ConditionEnv)
    ensures ConditionPass(c, env) == (BalancePass(c, env) || EarningPass(c, env))
  {
  }

  /**
   * As written, a condition on its own never excludes an item: the missing
   * one counts as passed, and the two results are OR-ed.
   */
  lemma LoneConditionNeverExcludes(c: Conditions, env: ConditionEnv)
    requires !c.balance.Present? || !c.earning.Present?
    ensures ConditionPass(c, env)
  {
  }

  /** A balance condition alone whose check fails still lets the item through. */
  lemma LoneFailingBalanceKept(b: seq<BalanceCondition>, env: ConditionEnv)
    requires !env.checkBalance(b)
    ensures ConditionPass(Conditions(Present(b), Absent, 0), env)
    ensures !ConditionPassIntended(Conditions(Present(b), Absent, 0), env)
  {
  }

  /**
   * The evidently intended condition check: an item with no condition passes;
   * otherwise it passes when one of the conditions it carries passes.
   */
  function ConditionPassIntended(c: Conditions, env: ConditionEnv): (r: bool)
    ensures !c.balance.Present? && !c.earning.Present? ==> r
    ensures c.balance.Present? && c.earning.Present? ==> r == ConditionPass(c, env)
    ensures c.balance.Present? && !c.earning.Present? ==> r == env.checkBalance(c.balance.value)
    ensures !c.balance.Present? && c.earning.Present? ==> r == env.checkEarning(env.yieldPositions, c.earning.value)
    ensures r ==> ConditionPass(c, env)
  {
    if !c.balance.Present? && !c.earning.Present? then true
    else
      (c.balance.Present? && env.checkBalance(c.balance.value))
      || (c.earning.Present? && env.checkEarning(env.yieldPositions, c.earning.value))
  }

  function PassesConditions(env: ConditionEnv): ContentItem -> bool {
    (x: ContentItem) => ConditionPass(x.conditions, env)
  }

  /** The memoised `filter` over the item list by balance and earning conditions. */
  function ConditionFilter(items: seq<ContentItem>, env: ConditionEnv): (r: seq<ContentItem>)
    ensures forall x :: x in r <==> x in items && ConditionPass(x.conditions, env)
    ensures forall x :: multiset(r)[x] == if ConditionPass(x.conditions, env) then multiset(items)[x] else 0
    ensures IsSubsequence(r, items)
  {
    var r := Filter(items, PassesConditions(env));
    FilterCounts(items, PassesConditions(env));
    FilterMembers(items, PassesConditions(env));
    FilterIsSubsequence(items, PassesConditions(env));
    r
  }

  function PassesIntended(env: ConditionEnv): ContentItem -> bool {
    (x: ContentItem) => ConditionPassIntended(x.conditions, env)
  }

  /**
   * The condition filter with the intended check: the items passing it, in
   * input order, which is the filter as written with the items it should have
   * rejected taken out.
   */
  function ConditionFilterIntended(items: seq<ContentItem>, env: ConditionEnv): (r: seq<ContentItem>)
    ensures forall x :: x in r <==> x in items && ConditionPassIntended(x.conditions, env)
    ensures r == Filter(ConditionFilter(items, env), PassesIntended(env))
    ensures IsSubsequence(r, ConditionFilter(items, env))
  {
    var r := Filter(items, PassesIntended(env));
    FilterMembers(items, PassesIntended(env));
    FilterNarrower(items, PassesIntended(env), PassesConditions(env));
    FilterIsSubsequence(ConditionFilter(items, env), PassesIntended(env));
    r
  }

  // ----- Ascending-priority stable sort -----

  predicate SortedByPriority(s: seq<ContentItem>) {
    forall i, j :: 0 <= i < j < |s| ==> s[i].priority <= s[j].priority
  }

  /** The items of `s` whose priority is `p`, in their order in `s`. */
  function WithPriority(s: seq<ContentItem>, p: int): seq<ContentItem> {
    if s == [] then []
    else (if s[0].priority == p then [s[0]] else []) + WithPriority(s[1..], p)
  }

  /** No item of `s` has a priority below `p`. */
  predicate AllAtLeast(p: int, s: seq<ContentItem>) {
    forall i :: 0 <= i < |s| ==> p <= s[i].priority
  }

  lemma SortedCons(a: ContentItem, t: seq<ContentItem>)
    requires SortedByPriority(t) && AllAtLeast(a.priority, t)
    ensures SortedByPriority([a] + t)
  {
    var r := [a] + t;
    forall i, j | 0 <= i < j < |r| ensures r[i].priority <= r[j].priority {
      assert r[j] == t[j - 1];
      if i > 0 {
        assert r[i] == t[i - 1];
      }
    }
  }

  /** A bound on every item of `s` bounds every item of a subsequence of `s`. */
  lemma {:induction false} SubsequenceAtLeast(p: int, r: seq<ContentItem>, s: seq<ContentItem>)
    requires IsSubsequence(r, s) && AllAtLeast(p, s)
    ensures AllAtLeast(p, r)
    decreases |s|
  {
    if r != [] {
      assert AllAtLeast(p, s[1..]) by {
        forall i | 0 <= i < |s[1..]| ensures p <= s[1..][i].priority {
          assert s[1..][i] == s[i + 1];
        }
      }
      if r[0] == s[0] {
        SubsequenceAtLeast(p, r[1..], s[1..]);
        forall i | 0 <= i < |r| ensures p <= r[i].priority {
          if i > 0 {
            assert r[i] == r[1..][i - 1];
          }
        }
      } else {
        SubsequenceAtLeast(p, r, s[1..]);
      }
    }
  }

  /** Dropping items from a list sorted by priority leaves it sorted. */
  lemma {:induction false} SubsequenceSorted(r: seq<ContentItem>, s: seq<ContentItem>)
    requires IsSubsequence(r, s) && SortedByPriority(s)
    ensures SortedByPriority(r)
    decreases |s|
  {
    if r != [] {
      var t := s[1..];
      assert SortedByPriority(t) && AllAtLeast(s[0].priority, t) by {
        forall i | 0 <= i < |t| ensures s[0].priority <= t[i].priority {
          assert t[i] == s[i + 1];
        }
        forall i, j | 0 <= i < j < |t| ensures t[i].priority <= t[j].priority {
          assert t[i] == s[i + 1] && t[j] == s[j + 1];
        }
      }
      if r[0] == s[0] {
        SubsequenceSorted(r[1..], t);
        SubsequenceAtLeast(s[0].priority, r[1..], t);
        SortedCons(r[0], r[1..]);
        assert r == [r[0]] + r[1..];
      } else {
        SubsequenceSorted(r, t);
      }
    }
  }

  /** A bound on every item of `u` and on `x` bounds every item of a permutation of `u + [x]`. */
  lemma AtLeastInsert(p: int, t: seq<ContentItem>, u: seq<ContentItem>, x: ContentItem)
    requires multiset(t) == multiset(u) + multiset{x}
    requires AllAtLeast(p, u) && p <= x.priority
    ensures AllAtLeast(p, t)
  {
    forall i | 0 <= i < |t| ensures p <= t[i].priority {
      assert t[i] in multiset(t);
      if t[i] != x {
        assert t[i] in multiset(u);
        var k :| 0 <= k < |u| && u[k] == t[i];
      }
    }
  }

  /** Puts `x` before the first element whose priority is not below its own. */
  function InsertByPriority(x: ContentItem, s: seq<ContentItem>): seq<ContentItem> {
    if s == [] || x.priority <= s[0].priority then [x] + s
    else [s[0]] + InsertByPriority(x, s[1..])
  }

  /** Insertion adds exactly `x`. */
  lemma {:induction false} InsertByPriorityCounts(x: ContentItem, s: seq<ContentItem>)
    ensures multiset(InsertByPriority(x, s)) == multiset(s) + multiset{x}
  {
    if !(s == [] || x.priority <= s[0].priority) {
      InsertByPriorityCounts(x, s[1..]);
      assert s == [s[0]] + s[1..];
    }
  }

  /** Insertion into a sorted list keeps it sorted. */
  lemma {:induction false} InsertByPrioritySorted(x: ContentItem, s: seq<ContentItem>)
    requires SortedByPriority(s)
    ensures SortedByPriority(InsertByPriority(x, s))
  {
    if s == [] || x.priority <= s[0].priority {
      assert AllAtLeast(x.priority, s) by {
        forall i | 0 <= i < |s| ensures x.priority <= s[i].priority {
          assert s[0].priority <= s[i].priority;
        }
      }
      SortedCons(x, s);
    } else {
      var t := s[1..];
      var rest := InsertByPriority(x, t);
      assert SortedByPriority(t) && AllAtLeast(s[0].priority, t) by {
        forall i | 0 <= i < |t| ensures s[0].priority <= t[i].priority {
          assert t[i] == s[i + 1];
        }
        forall i, j | 0 <= i < j < |t| ensures t[i].priority <= t[j].priority {
          assert t[i] == s[i + 1] && t[j] == s[j + 1];
        }
      }
      InsertByPrioritySorted(x, t);
      InsertByPriorityCounts(x, t);
      AtLeastInsert(s[0].priority, rest, t, x);
      SortedCons(s[0], rest);
    }
  }

  /**
   * `.sort((a, b) => a.priority - b.priority)`: ascending by priority, and a
   * permutation of its input.
   */
  function SortByPriority(s: seq<ContentItem>): (r: seq<ContentItem>)
    ensures SortedByPriority(r)
    ensures multiset(r) == multiset(s)
  {
    if s == [] then []
    else
      var rest := SortByPriority(s[1..]);
      InsertByPrioritySorted(s[0], rest);
      InsertByPriorityCounts(s[0], rest);
      assert s == [s[0]] + s[1..];
      InsertByPriority(s[0], rest)
  }

  /** Selecting one priority from a list with a known head. */
  lemma WithPriorityCons(a: ContentItem, t: seq<ContentItem>, p: int)
    ensures WithPriority([a] + t, p) == (if a.priority == p then [a] else []) + WithPriority(t, p)
  {
    assert ([a] + t)[0] == a && ([a] + t)[1..] == t;
  }

  /** Insertion puts `x` ahead of every item of equal priority already there. */
  lemma {:induction false} InsertByPriorityStable(x: ContentItem, s: seq<ContentItem>, p: int)
    ensures WithPriority(InsertByPriority(x, s), p) == (if x.priority == p then [x] else []) + WithPriority(s, p)
  {
    if s == [] || x.priority <= s[0].priority {
      WithPriorityCons(x, s, p);
    } else {
      var rest := InsertByPriority(x, s[1..]);
      assert InsertByPriority(x, s) == [s[0]] + rest;
      WithPriorityCons(s[0], rest, p);
      WithPriorityCons(s[0], s[1..], p);
      assert s == [s[0]] + s[1..];
      InsertByPriorityStable(x, s[1..], p);
      assert s[0].priority == p ==> x.priority != p;
    }
  }

  /**
   * The ECMAScript sort is stable: the items of each priority keep their input
   * order.
   */
  lemma {:induction false} SortByPriorityStable(s: seq<ContentItem>, p: int)
    ensures WithPriority(SortByPriority(s), p) == WithPriority(s, p)
  {
    if s != [] {
      SortByPriorityStable(s[1..], p);
      InsertByPriorityStable(s[0], SortByPriority(s[1..]), p);
    }
  }

  /** Selecting one priority commutes with filtering. */
  lemma {:induction false} WithPriorityFilter(s: seq<ContentItem>, q: ContentItem -> bool, p: int)
    ensures WithPriority(Filter(s, q), p) == Filter(WithPriority(s, p), q)
  {
    if s != [] {
      WithPriorityFilter(s[1..], q, p);
      var rest := Filter(s[1..], q);
      var head := if q(s[0]) then [s[0]] else [];
      assert Filter(s, q) == head + rest;
      WithPriorityAppend(head, rest, p);
      var sel := if s[0].priority == p then [s[0]] else [];
      assert WithPriority(s, p) == sel + WithPriority(s[1..], p);
      FilterConcat(sel, WithPriority(s[1..], p), q);
      if s[0].priority == p {
        assert Filter(sel, q) == head;
      } else {
        assert WithPriority(head, p) == [];
      }
    }
  }

  lemma {:induction false} WithPriorityAppend(a: seq<ContentItem>, b: seq<ContentItem>, p: int)
    ensures WithPriority(a + b, p) == WithPriority(a, p) + WithPriority(b, p)
  {
    if a != [] {
      assert (a + b)[1..] == a[1..] + b;
      WithPriorityAppend(a[1..], b, p);
    } else {
      assert a + b == b;
    }
  }

  // ----- Grouping by position -----

  function PositionIs(pos: string): ContentItem -> bool {
    (x: ContentItem) => x.position == pos
  }

  /** The positions that occur in `s`. */
  function Positions(s: seq<ContentItem>): set<string> {
    set x | x in s :: x.position
  }

  /**
   * The object built by the `reduce` that pushes each item onto the list of its
   * position: one list per position that occurs, in input order.
   */
  function Buckets(s: seq<ContentItem>): map<string, seq<ContentItem>> {
    map pos | pos in Positions(s) :: InPosition(s, pos)
  }

  /**
   * There is a list for exactly the positions that occur; none is empty; each
   * holds exactly the items of its position, in input order.
   */
  lemma BucketsContents(s: seq<ContentItem>, pos: string)
    ensures pos in Buckets(s) <==> exists x :: x in s && x.position == pos
    ensures pos in Buckets(s) ==> Buckets(s)[pos] != []
    ensures pos in Buckets(s) ==> forall x :: x in Buckets(s)[pos] <==> x in s && x.position == pos
    ensures pos in Buckets(s) ==> IsSubsequence(Buckets(s)[pos], s)
  {
  }

  /** The items of `s` at position `pos`, in their order in `s`. */
  function InPosition(s: seq<ContentItem>, pos: string): (r: seq<ContentItem>)
    ensures forall x :: x in r <==> x in s && x.position == pos
    ensures pos in Positions(s) ==> r != []
    ensures IsSubsequence(r, s)
  {
    var r := Filter(s, PositionIs(pos));
    FilterMembers(s, PositionIs(pos));
    FilterIsSubsequence(s, PositionIs(pos));
    assert forall x :: PositionIs(pos)(x) == (x.position == pos);
    assert pos in Positions(s) ==> r != [] by {
      if pos in Positions(s) {
        var x :| x in s && x.position == pos;
        assert x in r;
      }
    }
    r
  }

  /**
   * The bucketing `reduce` itself: one pass over the items, creating a position's
   * list on first sight and appending to it.
   */
  method BucketByPosition(items: seq<ContentItem>) returns (r: map<string, seq<ContentItem>>)
    ensures r == Buckets(items)
  {
    r := map[];
    BucketsOfNone(items);
    var i := 0;
    while i < |items|
      invariant i <= |items|
      invariant r == Buckets(items[..i])
    {
      BucketsStep(items, i);
      r := Push(r, items[i]);
      i := i + 1;
    }
    assert items[..|items|] == items;
  }

  /** `r[a.position] = r[a.position] || []; r[a.position].push(a)`. */
  function Push(r: map<string, seq<ContentItem>>, x: ContentItem): map<string, seq<ContentItem>> {
    r[x.position := (if x.position in r then r[x.position] else []) + [x]]
  }

  lemma BucketsOfNone(items: seq<ContentItem>)
    ensures Buckets(items[..0]) == map[]
  {
    assert items[..0] == [];
    assert Positions([]) == {};
  }

  lemma BucketsStep(items: seq<ContentItem>, i: nat)
    requires i < |items|
    ensures Buckets(items[..i + 1]) == Push(Buckets(items[..i]), items[i])
  {
    assert items[..i + 1] == items[..i] + [items[i]];
    BucketsAppend(items[..i], items[i]);
  }

  /** Appending an item extends only the list of its own position. */
  lemma BucketsAppend(s: seq<ContentItem>, x: ContentItem)
    ensures Buckets(s + [x]) ==
      Buckets(s)[x.position := (if x.position in Buckets(s) then Buckets(s)[x.position] else []) + [x]]
  {
    var b, b' := Buckets(s), Buckets(s + [x]);
    var expected := b[x.position := (if x.position in b then b[x.position] else []) + [x]];
    PositionsAppend(s, x);
    assert b'.Keys == expected.Keys;
    forall pos | pos in b'
      ensures b'[pos] == expected[pos]
    {
      InPositionAppend(s, x, pos);
      assert b'[pos] == InPosition(s + [x], pos);
      if pos in b {
        assert b[pos] == InPosition(s, pos);
      } else {
        InPositionEmpty(s, pos);
      }
    }
  }

  lemma PositionsAppend(s: seq<ContentItem>, x: ContentItem)
    ensures Positions(s + [x]) == Positions(s) + {x.position}
  {
    forall y | y in s + [x] ensures y in s || y == x { }
    forall y | y in s ensures y in s + [x] { }
    assert x in s + [x];
  }

  lemma {:induction false} InPositionEmpty(s: seq<ContentItem>, pos: string)
    requires pos !in Positions(s)
    ensures InPosition(s, pos) == []
  {
    if s != [] {
      assert s[0].position in Positions(s);
      assert Positions(s[1..]) <= Positions(s) by {
        forall q | q in Positions(s[1..]) ensures q in Positions(s) {
          var y :| y in s[1..] && y.position == q;
          assert y in s;
        }
      }
      InPositionEmpty(s[1..], pos);
      assert InPosition(s, pos) == Filter(s, PositionIs(pos));
      assert InPosition(s[1..], pos) == Filter(s[1..], PositionIs(pos));
    }
  }

  lemma InPositionAppend(s: seq<ContentItem>, x: ContentItem, pos: string)
    ensures InPosition(s + [x], pos) == InPosition(s, pos) + (if x.position == pos then [x] else [])
  {
    FilterAppend(s, x, PositionIs(pos));
  }

  // ----- Bucket sizes add up to the input length -----

  predicate NoDuplicates(ks: seq<string>) {
    forall i, j :: 0 <= i < j < |ks| ==> ks[i] != ks[j]
  }

  /** The sum of the lengths of the lists under `ks`. */
  function SumOfSizes(m: map<string, seq<ContentItem>>, ks: seq<string>): nat
    requires forall k :: k in ks ==> k in m
  {
    if ks == [] then 0 else |m[ks[0]]| + SumOfSizes(m, ks[1..])
  }

  /** The number of items of `s` at each position of `ks`, summed. */
  function CountAt(s: seq<ContentItem>, ks: seq<string>): nat {
    if ks == [] then 0 else |Filter(s, PositionIs(ks[0]))| + CountAt(s, ks[1..])
  }

  lemma {:induction false} CountAtHead(s: seq<ContentItem>, ks: seq<string>)
    requires s != [] && NoDuplicates(ks)
    ensures CountAt(s, ks) == (if s[0].position in ks then 1 else 0) + CountAt(s[1..], ks)
  {
    if ks != [] {
      CountAtHead(s, ks[1..]);
      assert s[0].position in ks[1..] ==> s[0].position != ks[0];
      assert s[0].position in ks <==> s[0].position == ks[0] || s[0].position in ks[1..];
    }
  }

  lemma {:induction false} CountAtAll(s: seq<ContentItem>, ks: seq<string>)
    requires NoDuplicates(ks) && Positions(s) <= set k | k in ks
    ensures CountAt(s, ks) == |s|
  {
    if s == [] {
      CountAtEmpty(ks);
    } else {
      CountAtHead(s, ks);
      assert s[0].position in Positions(s);
      assert Positions(s[1..]) <= Positions(s) by {
        forall pos | pos in Positions(s[1..]) ensures pos in Positions(s) {
          var y :| y in s[1..] && y.position == pos;
          assert y in s;
        }
      }
      CountAtAll(s[1..], ks);
    }
  }

  lemma {:induction false} CountAtEmpty(ks: seq<string>)
    ensures CountAt([], ks) == 0
  {
    if ks != [] {
      CountAtEmpty(ks[1..]);
    }
  }

  lemma {:induction false} SumOfSizesBuckets(s: seq<ContentItem>, ks: seq<string>)
    requires forall k :: k in ks ==> k in Buckets(s)
    ensures SumOfSizes(Buckets(s), ks) == CountAt(s, ks)
  {
    if ks != [] {
      SumOfSizesBuckets(s, ks[1..]);
    }
  }

  /**
   * Grouping loses and duplicates nothing: over any duplicate-free listing of
   * the positions, the list lengths add up to the number of items.
   */
  lemma BucketSizesSum(s: seq<ContentItem>, ks: seq<string>)
    requires NoDuplicates(ks) && (set k | k in ks) == Positions(s)
    ensures SumOfSizes(Buckets(s), ks) == |s|
  {
    SumOfSizesBuckets(s, ks);
    CountAtAll(s, ks);
  }
}
