/** BasketUI: the basket's header line ("Basket: 3 items — $1500") and its item list, one line
    per item. Integers are written in decimal as `int.ToString()` writes them. */
module ShopUI {
  import opened UnityMath
  import opened Shop

  predicate IsDigit(c: char)
  {
    '0' <= c <= '9'
  }

  function DigitValue(c: char): int
    requires IsDigit(c)
  {
    c as int - '0' as int
  }

  /** The character of a decimal digit, which reads back as that digit. */
  function DigitChar(d: int): (c: char)
    requires 0 <= d < 10
    ensures IsDigit(c) && DigitValue(c) == d
  {
    ('0' as int + d) as char
  }

  /** The decimal digits of `n`, most significant first, with no leading zero. */
  function NatToString(n: nat): (s: string)
    ensures |s| >= 1 && forall i :: 0 <= i < |s| ==> IsDigit(s[i])
  {
    if n < 10 then [DigitChar(n)] else NatToString(n / 10) + [DigitChar(n % 10)]
  }

  /** `int.ToString()`: a minus sign before the digits of a negative number. */
  function IntToString(i: int): (s: string)
    ensures |s| >= 1 && forall k :: 0 <= k < |s| ==> IsDigit(s[k]) || s[k] == '-'
  {
    if i < 0 then "-" + NatToString(-i) else NatToString(i)
  }

  /** Reading a digit string back as a number. */
  function ParseNat(s: string): nat
    requires forall i :: 0 <= i < |s| ==> IsDigit(s[i])
  {
    if s == [] then 0 else ParseNat(s[..|s| - 1]) * 10 + DigitValue(s[|s| - 1])
  }

  function ParseInt(s: string): int
    requires forall i :: 0 <= i < |s| ==> IsDigit(s[i]) || s[i] == '-'
    requires |s| > 0 && s[0] == '-' ==> forall i :: 1 <= i < |s| ==> IsDigit(s[i])
    requires |s| > 0 && s[0] != '-' ==> forall i :: 0 <= i < |s| ==> IsDigit(s[i])
  {
    if |s| > 0 && s[0] == '-' then -(ParseNat(s[1..]) as int) else ParseNat(s)
  }

  lemma {:induction false} NatToStringRoundTrip(n: nat)
    ensures ParseNat(NatToString(n)) == n
  {
    var s := NatToString(n);
    if n >= 10 {
      NatToStringRoundTrip(n / 10);
      assert s[..|s| - 1] == NatToString(n / 10);
      assert s[|s| - 1] == DigitChar(n % 10);
    } else {
      assert s[..|s| - 1] == [];
    }
  }

  /** Every integer can be read back from the text `int.ToString()` gives. */
  lemma IntToStringRoundTrip(i: int)
    ensures ParseInt(IntToString(i)) == i
  {
    var s := IntToString(i);
    if i < 0 {
      assert s[1..] == NatToString(-i);
      NatToStringRoundTrip(-i);
    } else {
      NatToStringRoundTrip(i);
    }
  }

  /** The em dash of the header. */
  const Dash: char := '\U{2014}'

  function HeaderPrefix(count: int): string
  {
    "Basket: " + IntToString(count) + " item"
  }

  /** The header line: the item count, "item" or "items", and the total. */
  function Header(count: int, total: int): (h: string)
    ensures HeaderPrefix(count) <= h
    ensures |IntToString(total)| < |h| && h[|h| - |IntToString(total)|..] == IntToString(total)
  {
    HeaderPrefix(count) + (if count == 1 then "" else "s") + [' ', Dash, ' ', '$'] + IntToString(total)
  }

  /** The header says "item" for exactly one item and "items" otherwise, zero included. */
  lemma HeaderPlural(count: int, total: int)
    ensures Header(count, total)[|HeaderPrefix(count)|] == 's' <==> count != 1
  {
    var h := Header(count, total);
    var p := HeaderPrefix(count);
    if count == 1 {
      assert h[|p|] == ' ';
    } else {
      assert h[|p|] == 's';
    }
  }

  /** The count and the total can be read back from the header. */
  lemma HeaderReadsBack(count: int, total: int)
    ensures var h := Header(count, total);
            var c := IntToString(count);
            var t := IntToString(total);
            && h[..8] == "Basket: "
            && 8 + |c| <= |h| && ParseInt(h[8..8 + |c|]) == count
            && |t| <= |h| && ParseInt(h[|h| - |t|..]) == total
  {
    var h := Header(count, total);
    var c := IntToString(count);
    var t := IntToString(total);
    assert h[8..8 + |c|] == c;
    assert h[|h| - |t|..] == t;
    IntToStringRoundTrip(count);
    IntToStringRoundTrip(total);
  }

  /** One list line: `name  ($price)` and a line break. */
  function Line(it: Item): (l: string)
    ensures it.name <= l && |l| > |it.name| && l[|l| - 1] == '\n'
  {
    it.name + "  ($" + IntToString(it.price) + ")" + "\n"
  }

  /** The item list: the lines of the items in basket order. */
  function ListText(items: seq<Item>): (t: string)
    ensures t == "" <==> items == []
    ensures items != [] ==> t[|t| - 1] == '\n'
  {
    if items == [] then "" else ListText(items[..|items| - 1]) + Line(items[|items| - 1])
  }

  /** How often `c` occurs in `s`. */
  function CountChar(s: string, c: char): nat
  {
    if s == [] then 0 else CountChar(s[..|s| - 1], c) + (if s[|s| - 1] == c then 1 else 0)
  }

  lemma {:induction false} CountCharConcat(a: string, b: string, c: char)
    ensures CountChar(a + b, c) == CountChar(a, c) + CountChar(b, c)
  {
    if b != [] {
      CountCharConcat(a, b[..|b| - 1], c);
      assert (a + b)[..|a + b| - 1] == a + b[..|b| - 1];
    } else {
      assert a + b == a;
    }
  }

  lemma {:induction false} CountCharAbsent(s: string, c: char)
    requires forall i :: 0 <= i < |s| ==> s[i] != c
    ensures CountChar(s, c) == 0
  {
    if s != [] {
      CountCharAbsent(s[..|s| - 1], c);
    }
  }

  /** A line of an item whose name holds no line break holds exactly one, at its end. */
  lemma LineHasOneBreak(it: Item)
    requires forall k :: 0 <= k < |it.name| ==> it.name[k] != '\n'
    ensures CountChar(Line(it), '\n') == 1
  {
    var body := it.name + "  ($" + IntToString(it.price) + ")";
    assert Line(it) == body + "\n";
    CountCharAbsent(body, '\n');
    CountCharConcat(body, "\n", '\n');
  }

  /** With item names on one line each, the list has exactly one line break per item. */
  lemma {:induction false} ListTextOneLinePerItem(items: seq<Item>)
    requires forall i :: 0 <= i < |items| ==> forall k :: 0 <= k < |items[i].name| ==> items[i].name[k] != '\n'
    ensures CountChar(ListText(items), '\n') == |items|
  {
    if items != [] {
      var front := items[..|items| - 1];
      var it := items[|items| - 1];
      ListTextOneLinePerItem(front);
      assert forall k :: 0 <= k < |it.name| ==> it.name[k] != '\n';
      LineHasOneBreak(it);
      CountCharConcat(ListText(front), Line(it), '\n');
    }
  }

  /** Adding an item to the basket adds its line at the end of the list. */
  lemma ListTextAppend(items: seq<Item>, it: Item)
    ensures ListText(items + [it]) == ListText(items) + Line(it)
  {
    assert (items + [it])[..|items|] == items;
  }

  /** The list of the first `i + 1` items is the list of the first `i` and the next line. */
  lemma ListTextStep(items: seq<Item>, i: int)
    requires 0 <= i < |items|
    ensures ListText(items[..i + 1]) == ListText(items[..i]) + Line(items[i])
  {
    assert items[..i + 1][..i] == items[..i];
  }

  class BasketUI {
    const basket: Basket?
    /** The header and list text fields; None when the text component is not assigned. */
    var headerText: Option<string>
    var listText: Option<string>

    constructor (basket: Basket?, hasHeader: bool, hasList: bool)
      ensures this.basket == basket
      ensures headerText == (if hasHeader then Some("") else None)
      ensures listText == (if hasList then Some("") else None)
    {
      this.basket := basket;
      headerText := if hasHeader then Some("") else None;
      listText := if hasList then Some("") else None;
    }

    /** Refresh: rewrite the header and the list from the basket; without a basket nothing changes. */
    method Refresh()
      modifies this`headerText, this`listText
      ensures basket == null ==> headerText == old(headerText) && listText == old(listText)
      ensures headerText.Some? == old(headerText).Some? && listText.Some? == old(listText).Some?
      ensures basket != null && headerText.Some? ==>
                headerText.value == Header(|basket.items|, SumPrices(basket.items))
      ensures basket != null && listText.Some? ==> listText.value == ListText(basket.items)
    {
      if basket == null {
        return;
      }
      var count := |basket.items|;
      var total := basket.Total();
      if headerText.Some? {
        headerText := Some(Header(count, total));
      }
      if listText.Some? {
        var text := BuildList(basket.items);
        listText := Some(text);
      }
    }
  }

  /** The StringBuilder loop of Refresh: one line appended per item, in basket order. */
  method BuildList(items: seq<Item>) returns (text: string)
    ensures text == ListText(items)
  {
    text := "";
    var i := 0;
    while i < |items|
      invariant 0 <= i <= |items|
      invariant text == ListText(items[..i])
    {
      ListTextStep(items, i);
      text := text + Line(items[i]);
      i := i + 1;
    }
    assert items[..i] == items;
  }
}
