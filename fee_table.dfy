/** Mercado Livre's fixed-fee resolution: the fee table is sorted in place,
    ascending by threshold, and the first rule whose `>` or `<=` test matches the
    price decides the fee; a blocked rule yields the sentinel -1. */
module FeeTable {
  import opened Wrappers
  import opened Rules

  /** Fee returned for a price whose tier is blocked. */
  const Blocked: real := -1.0

  predicate SortedByKey(s: seq<FeeRule>) {
    forall i, j | 0 <= i < j < |s| :: s[i].Key() <= s[j].Key()
  }

  /** Inserts `x` into `s` just before the first rule whose key exceeds `x`'s, so
      that rules with equal keys keep their relative order. */
  function Insert(x: FeeRule, s: seq<FeeRule>): seq<FeeRule> {
    if s == [] then [x]
    else if x.Key() < s[0].Key() then [x] + s
    else [s[0]] + Insert(x, s[1..])
  }

  /** The table as Python's stable `list.sort(key=...)` leaves it: insertion sort,
      one rule at a time from the left. */
  function SortByKey(s: seq<FeeRule>): seq<FeeRule> {
    if s == [] then [] else Insert(s[|s| - 1], SortByKey(s[..|s| - 1]))
  }

  /** A rule placed in front of a sorted table whose first key is not smaller
      keeps the table sorted. */
  lemma SortedCons(a: FeeRule, t: seq<FeeRule>)
    requires SortedByKey(t)
    requires t != [] ==> a.Key() <= t[0].Key()
    ensures SortedByKey([a] + t)
  {
    var u := [a] + t;
    forall i, j | 0 <= i < j < |u| ensures u[i].Key() <= u[j].Key() {
      if i == 0 && j > 1 {
        assert u[1] == t[0] && u[j] == t[j - 1];
      }
    }
  }

  lemma {:induction false} InsertSorted(x: FeeRule, s: seq<FeeRule>)
    requires SortedByKey(s)
    ensures SortedByKey(Insert(x, s))
  {
    if s == [] {
    } else if x.Key() < s[0].Key() {
      SortedCons(x, s);
    } else {
      var t := Insert(x, s[1..]);
      InsertSorted(x, s[1..]);
      assert t[0] == x || t[0] == s[1];
      SortedCons(s[0], t);
    }
  }

  lemma {:induction false} InsertPermutation(x: FeeRule, s: seq<FeeRule>)
    ensures multiset(Insert(x, s)) == multiset(s) + multiset{x}
  {
    if s != [] && x.Key() >= s[0].Key() {
      InsertPermutation(x, s[1..]);
      assert s == [s[0]] + s[1..];
    }
  }

  /** The sorted table is sorted by threshold and holds exactly the same rules. */
  lemma {:induction false} SortByKeySortedPermutation(s: seq<FeeRule>)
    ensures SortedByKey(SortByKey(s))
    ensures multiset(SortByKey(s)) == multiset(s)
  {
    if s != [] {
      var init := s[..|s| - 1];
      SortByKeySortedPermutation(init);
      InsertSorted(s[|s| - 1], SortByKey(init));
      InsertPermutation(s[|s| - 1], SortByKey(init));
      assert s == init + [s[|s| - 1]];
    }
  }

  /** Inserting a rule whose key is at least every key of `s` appends it. */
  lemma {:induction false} InsertLast(x: FeeRule, s: seq<FeeRule>)
    requires forall k | 0 <= k < |s| :: s[k].Key() <= x.Key()
    ensures Insert(x, s) == s + [x]
  {
    if s != [] {
      InsertLast(x, s[1..]);
      assert s == [s[0]] + s[1..];
    }
  }

  /** Sorting an already sorted table leaves it as it is, so the second lookup in
      `calculate_ml`, which sees the table the first lookup sorted, finds the same
      order. */
  lemma {:induction false} SortByKeyOfSorted(s: seq<FeeRule>)
    requires SortedByKey(s)
    ensures SortByKey(s) == s
  {
    if s != [] {
      var init := s[..|s| - 1];
      SortByKeyOfSorted(init);
      InsertLast(s[|s| - 1], init);
      assert s == init + [s[|s| - 1]];
    }
  }

  /** Where `Insert` places `x` in a sorted table: at the position `j` the
      insertion loop stops at. */
  lemma {:induction false} InsertAt(x: FeeRule, s: seq<FeeRule>, j: nat)
    requires SortedByKey(s) && j <= |s|
    requires j > 0 ==> s[j - 1].Key() <= x.Key()
    requires forall k | j <= k < |s| :: s[k].Key() > x.Key()
    ensures Insert(x, s) == s[..j] + [x] + s[j..]
  {
    if s != [] && j > 0 {
      assert s[0].Key() <= s[j - 1].Key();
      InsertAt(x, s[1..], j - 1);
      assert s[1..][..j - 1] == s[1..j];
      assert s[1..][j - 1..] == s[j..];
      assert s[..j] == [s[0]] + s[1..j];
    }
  }

  lemma SortPreservesWellFormed(s: seq<FeeRule>)
    requires WellFormedTable(s)
    ensures WellFormedTable(SortByKey(s))
  {
    SortByKeySortedPermutation(s);
    forall r | r in SortByKey(s) ensures r.WellFormed() {
      assert r in multiset(SortByKey(s));
    }
  }

  /** The rule's price test (`>` or `<=` against its threshold). */
  predicate Matches(r: FeeRule, price: real) {
    (r.operator == ">" && price > r.Key()) || (r.operator == "<=" && price <= r.Key())
  }

  /** What a matching rule charges: its amount if fixed, the sentinel if blocked. */
  function RuleFee(r: FeeRule): real {
    if r.feeType == "fixo" then r.value.GetOr(0.0) else Blocked
  }

  /** The fee of the first rule of `rules` that matches `price`; 0 when none does. */
  function FirstMatchFee(rules: seq<FeeRule>, price: real): real {
    if rules == [] then 0.0
    else if Matches(rules[0], price) then RuleFee(rules[0])
    else FirstMatchFee(rules[1..], price)
  }

  /** Rule `i` is the first rule of `rules` that matches `price`. */
  predicate FirstMatchAt(rules: seq<FeeRule>, price: real, i: int) {
    0 <= i < |rules| && Matches(rules[i], price) &&
    forall k | 0 <= k < i :: !Matches(rules[k], price)
  }

  /** The scan returns the fee of the first matching rule, and 0 exactly when no
      rule matches or the first match is a fixed fee of 0. */
  lemma {:induction false} FirstMatchFeeSpec(rules: seq<FeeRule>, price: real)
    ensures (forall k | 0 <= k < |rules| :: !Matches(rules[k], price)) ==>
              FirstMatchFee(rules, price) == 0.0
    ensures forall i | FirstMatchAt(rules, price, i) :: FirstMatchFee(rules, price) == RuleFee(rules[i])
  {
    if rules != [] {
      FirstMatchFeeSpec(rules[1..], price);
      forall i | FirstMatchAt(rules, price, i)
        ensures FirstMatchFee(rules, price) == RuleFee(rules[i])
      {
        if i > 0 {
          assert FirstMatchAt(rules[1..], price, i - 1);
        }
      }
    }
  }

  /** `_get_fixed_fee(price, fee_table)` as a value: 0 for a non-positive price,
      otherwise the first matching rule of the table sorted by threshold. */
  function FixedFee(price: real, table: seq<FeeRule>): (fee: real)
    requires WellFormedTable(table)
    ensures price <= 0.0 ==> fee == 0.0
    ensures fee == 0.0 || fee == Blocked ||
            exists r | r in table :: r.feeType == "fixo" && r.value == Some(fee)
  {
    if price <= 0.0 then 0.0
    else
      var sorted := SortByKey(table);
      SortPreservesWellFormed(table);
      FirstMatchFeeFrom(sorted, price);
      SortByKeySortedPermutation(table);
      assert forall r | r in sorted :: r in multiset(table);
      FirstMatchFee(sorted, price)
  }

  /** The scan's result is 0, the sentinel, or the amount of some fixed-fee rule. */
  lemma {:induction false} FirstMatchFeeFrom(rules: seq<FeeRule>, price: real)
    requires WellFormedTable(rules)
    ensures var fee := FirstMatchFee(rules, price);
            fee == 0.0 || fee == Blocked ||
            exists r | r in rules :: r.feeType == "fixo" && r.value == Some(fee)
  {
    if rules != [] {
      if Matches(rules[0], price) {
        assert rules[0] in rules;
      } else {
        assert forall r | r in rules[1..] :: r in rules;
        FirstMatchFeeFrom(rules[1..], price);
      }
    }
  }

  /** The lookup on a table the previous lookup already sorted gives the same fee. */
  lemma FixedFeeAfterSort(price: real, table: seq<FeeRule>)
    requires WellFormedTable(table)
    ensures WellFormedTable(SortByKey(table))
    ensures FixedFee(price, SortByKey(table)) == FixedFee(price, table)
  {
    SortPreservesWellFormed(table);
    SortByKeySortedPermutation(table);
    SortByKeyOfSorted(SortByKey(table));
  }

  /** At a positive price the fee is that of the first rule of the sorted table
      that matches the price. */
  lemma FixedFeeFirstMatch(price: real, table: seq<FeeRule>, i: int)
    requires WellFormedTable(table) && price > 0.0
    requires FirstMatchAt(SortByKey(table), price, i)
    ensures FixedFee(price, table) == RuleFee(SortByKey(table)[i])
  {
    FirstMatchFeeSpec(SortByKey(table), price);
  }

  /** The inner loop of the insertion sort: shifts every rule of `a[..i]` that
      sorts after `x` one place to the right, leaving a gap at the returned `j`. */
  method ShiftLarger(a: array<FeeRule>, i: nat, x: FeeRule) returns (j: nat)
    requires i < a.Length
    modifies a
    ensures j <= i
    ensures forall k | 0 <= k < j :: a[k] == old(a[k])
    ensures forall k | j < k <= i :: a[k] == old(a[k - 1])
    ensures forall k | j <= k < i :: old(a[k]).Key() > x.Key()
    ensures j > 0 ==> old(a[j - 1]).Key() <= x.Key()
    ensures forall k | i < k < a.Length :: a[k] == old(a[k])
  {
    j := i;
    while j > 0 && a[j - 1].Key() > x.Key()
      invariant j <= i
      invariant forall k | 0 <= k < j :: a[k] == old(a[k])
      invariant forall k | j < k <= i :: a[k] == old(a[k - 1])
      invariant forall k | j <= k < i :: old(a[k]).Key() > x.Key()
      invariant forall k | i < k < a.Length :: a[k] == old(a[k])
    {
      a[j] := a[j - 1];
      j := j - 1;
    }
  }

  /** One step of the insertion sort: moves `a[i]` left past every rule of the
      sorted prefix `a[..i]` whose key is larger. */
  method InsertInPlace(a: array<FeeRule>, i: nat)
    requires i < a.Length && SortedByKey(a[..i])
    modifies a
    ensures a[..i + 1] == Insert(old(a[i]), old(a[..i]))
    ensures forall k | i < k < a.Length :: a[k] == old(a[k])
  {
    var x := a[i];
    ghost var s := a[..i];
    var j := ShiftLarger(a, i, x);
    InsertAt(x, s, j);
    a[j] := x;
    ghost var r := s[..j] + [x] + s[j..];
    assert |r| == i + 1;
    forall k | 0 <= k <= i ensures a[k] == r[k] {
      if k < j {
        assert r[k] == s[k];
      } else if k > j {
        assert r[k] == s[k - 1];
      }
    }
    assert a[..i + 1] == r;
  }

  /** Sorting one more element of a prefix inserts it into the sorted prefix. */
  lemma SortByKeyPrefix(s: seq<FeeRule>, i: nat)
    requires i < |s|
    ensures SortByKey(s[..i + 1]) == Insert(s[i], SortByKey(s[..i]))
  {
    assert s[..i + 1][..i] == s[..i];
  }

  /** `fee_table.sort(key=lambda x: x.get("opValue", 0))`: a stable insertion sort
      in place. */
  method SortInPlace(a: array<FeeRule>)
    modifies a
    ensures a[..] == SortByKey(old(a[..]))
  {
    ghost var input := a[..];
    var i := 0;
    while i < a.Length
      invariant 0 <= i <= a.Length
      invariant a[..i] == SortByKey(input[..i])
      invariant forall k | i <= k < a.Length :: a[k] == input[k]
    {
      SortByKeySortedPermutation(input[..i]);
      InsertInPlace(a, i);
      SortByKeyPrefix(input, i);
      i := i + 1;
    }
    assert a[..] == a[..a.Length];
    assert input == input[..a.Length];
  }

  /** `_get_fixed_fee`: returns 0 for a non-positive price without touching the
      table; otherwise sorts the table in place and scans it for the first rule
      that matches. */
  method GetFixedFee(price: real, table: array<FeeRule>) returns (fee: real)
    requires WellFormedTable(table[..])
    modifies table
    ensures fee == FixedFee(price, old(table[..]))
    ensures table[..] == if price <= 0.0 then old(table[..]) else SortByKey(old(table[..]))
  {
    if price <= 0.0 {
      return 0.0;
    }
    SortInPlace(table);
    SortPreservesWellFormed(old(table[..]));
    for i := 0 to table.Length
      invariant table[..] == SortByKey(old(table[..]))
      invariant FirstMatchFee(table[i..], price) == FirstMatchFee(table[..], price)
    {
      var rule := table[i];
      assert rule in table[..];
      assert table[i..] == [rule] + table[i + 1..];
      if rule.operator == ">" && price > rule.opValue.value {
        return if rule.feeType == "fixo" then rule.value.value else Blocked;
      } else if rule.operator == "<=" && price <= rule.opValue.value {
        return if rule.feeType == "fixo" then rule.value.value else Blocked;
      }
    }
    return 0.0;
  }
}
