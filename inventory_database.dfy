/** InventoryDatabase: the items the inventory knows, looked up by name regardless of letter case. */
module InventoryDb {
  import opened UnityMath

  datatype ItemCategory = Generic | Gun

  /** A prefab, by an identity of its own. */
  type PrefabId = nat

  /** An entry: its name, its prefab (None when unassigned) and its category. */
  datatype Entry = Entry(name: string, prefab: Option<PrefabId>, category: ItemCategory)

  /** Ordinal case folding of one character, for the Latin letters A-Z. */
  function FoldCase(c: char): (f: char)
    ensures 'a' <= c <= 'z' ==> f == c - 'a' + 'A'
    ensures !('a' <= c <= 'z') ==> f == c
  {
    if 'a' <= c <= 'z' then (c as int - 'a' as int + 'A' as int) as char else c
  }

  /** `string.Equals(a, b, StringComparison.OrdinalIgnoreCase)`. */
  predicate EqualsIgnoreCase(a: string, b: string)
  {
    |a| == |b| && forall i :: 0 <= i < |a| ==> FoldCase(a[i]) == FoldCase(b[i])
  }

  /** The comparison is an equivalence, so "the entries with this name" is well defined. */
  lemma EqualsIgnoreCaseIsEquivalence(a: string, b: string, c: string)
    ensures EqualsIgnoreCase(a, a)
    ensures EqualsIgnoreCase(a, b) ==> EqualsIgnoreCase(b, a)
    ensures EqualsIgnoreCase(a, b) && EqualsIgnoreCase(b, c) ==> EqualsIgnoreCase(a, c)
  {
  }

  /** Names that differ only in the case of their letters match. */
  lemma CaseVariantsMatch(a: string, b: string)
    requires |a| == |b|
    requires forall i :: 0 <= i < |a| ==> a[i] == b[i] || FoldCase(a[i]) == b[i] || a[i] == FoldCase(b[i])
    ensures EqualsIgnoreCase(a, b)
  {
    forall i | 0 <= i < |a|
      ensures FoldCase(a[i]) == FoldCase(b[i])
    {
      FoldTwiceIsOnce(a[i]);
      FoldTwiceIsOnce(b[i]);
    }
  }

  lemma FoldTwiceIsOnce(c: char)
    ensures FoldCase(FoldCase(c)) == FoldCase(c)
  {
  }

  /** `k` is the first entry whose name matches `itemName`. */
  predicate IsFirstMatch(items: seq<Entry>, itemName: string, k: int)
  {
    0 <= k < |items| && EqualsIgnoreCase(items[k].name, itemName)
    && forall j :: 0 <= j < k ==> !EqualsIgnoreCase(items[j].name, itemName)
  }

  /** The first entry, in database order, whose name matches; None when none does. */
  function Find(items: seq<Entry>, itemName: string): (r: Option<Entry>)
    ensures r.None? <==> forall j :: 0 <= j < |items| ==> !EqualsIgnoreCase(items[j].name, itemName)
    ensures r.Some? ==> exists k :: IsFirstMatch(items, itemName, k) && items[k] == r.value
  {
    if items == [] then None
    else if EqualsIgnoreCase(items[0].name, itemName) then
      assert IsFirstMatch(items, itemName, 0);
      Some(items[0])
    else
      var rest := Find(items[1..], itemName);
      if rest.Some? then
        var k :| IsFirstMatch(items[1..], itemName, k) && items[1..][k] == rest.value;
        assert IsFirstMatch(items, itemName, k + 1);
        rest
      else
        rest
  }

  /** An entry placed before every other entry with a matching name is the one found. */
  lemma {:induction false} EarlierEntryWins(items: seq<Entry>, itemName: string, k: int)
    requires IsFirstMatch(items, itemName, k)
    ensures Find(items, itemName) == Some(items[k])
  {
    if k > 0 {
      assert !EqualsIgnoreCase(items[0].name, itemName);
      assert IsFirstMatch(items[1..], itemName, k - 1);
      EarlierEntryWins(items[1..], itemName, k - 1);
    }
  }

  /** The database asset: a fixed array of entries. */
  class InventoryDatabase {
    const items: seq<Entry>

    constructor (items: seq<Entry>)
      ensures this.items == items
    {
      this.items := items;
    }

    /** TryGet: scans the entries in order and stops at the first whose name matches. */
    method TryGet(itemName: string) returns (found: bool, entry: Option<Entry>)
      ensures found <==> entry.Some?
      ensures entry == Find(items, itemName)
    {
      var i := 0;
      while i < |items|
        invariant 0 <= i <= |items|
        invariant forall j :: 0 <= j < i ==> !EqualsIgnoreCase(items[j].name, itemName)
      {
        if EqualsIgnoreCase(items[i].name, itemName) {
          EarlierEntryWins(items, itemName, i);
          return true, Some(items[i]);
        }
        i := i + 1;
      }
      return false, None;
    }
  }
}
