/**
 * The text of the "Uptime" line: the positive parts of a (years, months, days) age, each
 * pluralised unless it is 1, joined by ", ", or "0 days" when no part is positive.
 * Computing the age from a birthday and today's date is not part of this model; the three
 * components are inputs.
 */
module Uptime {
  import opened Wrappers
  import opened Text
  import opened Decimal

  /** One part such as "3 months" or "1 year". */
  function Part(count: int, unit: string): string
  {
    DecimalString(count) + " " + unit + (if count != 1 then "s" else "")
  }

  /** The parts that are shown, in the order years, months, days. */
  function Parts(years: int, months: int, days: int): seq<string>
  {
    (if years > 0 then [Part(years, "year")] else [])
    + (if months > 0 then [Part(months, "month")] else [])
    + (if days > 0 then [Part(days, "day")] else [])
  }

  function UptimeText(years: int, months: int, days: int): string
  {
    var parts := Parts(years, months, days);
    if |parts| > 0 then Join(parts, ", ") else "0 days"
  }

  // ---------------------------------------------------------------------------------------
  // Reading an uptime text back.

  predicate IsLetter(c: char)
  {
    'a' <= c <= 'z'
  }

  predicate IsWord(s: string)
  {
    |s| > 0 && forall i :: 0 <= i < |s| ==> IsLetter(s[i])
  }

  /** Length of the longest prefix of s made of digits. */
  function DigitSpan(s: string): (k: nat)
    ensures k <= |s| && AllDigits(s[..k])
    ensures k < |s| ==> !IsDigit(s[k])
  {
    if |s| > 0 && IsDigit(s[0]) then
      var k := 1 + DigitSpan(s[1..]);
      assert s[..k] == [s[0]] + s[1..][..k - 1];
      k
    else 0
  }

  /** Length of the longest prefix of s made of lower-case letters. */
  function LetterSpan(s: string): (k: nat)
    ensures k <= |s|
    ensures k < |s| ==> !IsLetter(s[k])
    ensures forall i :: 0 <= i < k ==> IsLetter(s[i])
  {
    if |s| > 0 && IsLetter(s[0]) then 1 + LetterSpan(s[1..]) else 0
  }

  /** An item "N unit" as read: the count and the unit word exactly as written. */
  datatype Item = Item(count: nat, word: string)

  /** Reads one item "N word" at the start of s and returns it with what follows it. */
  function ParseItem(s: string): Option<(Item, string)>
  {
    var k := DigitSpan(s);
    if k == 0 || k == |s| || s[k] != ' ' then None
    else
      var rest := s[k + 1..];
      var w := LetterSpan(rest);
      if w == 0 then None else Some((Item(DigitsValue(s[..k]), rest[..w]), rest[w..]))
  }

  /** Reads one or more items separated by ", ", covering all of s. */
  function ParseItems(s: string): Option<seq<Item>>
    decreases |s|
  {
    match ParseItem(s)
    case None => None
    case Some((item, tail)) =>
      if tail == "" then Some([item])
      else if |tail| >= 2 && tail[..2] == ", " && |tail| <= |s| then
        match ParseItems(tail[2..])
        case None => None
        case Some(items) => Some([item] + items)
      else None
  }

  /** Takes a leading item for the given unit, if there is one, with the plural agreeing. */
  function TakeUnit(items: seq<Item>, unit: string): (nat, seq<Item>)
  {
    if |items| > 0 && items[0].count > 0 && items[0].word == Plural(items[0].count, unit)
    then (items[0].count, items[1..])
    else (0, items)
  }

  function Plural(count: int, unit: string): string
  {
    unit + (if count != 1 then "s" else "")
  }

  /** Positive years, months and days, in that order, each at most once, and nothing else. */
  function Interpret(items: seq<Item>): Option<(nat, nat, nat)>
  {
    var (y, r1) := TakeUnit(items, "year");
    var (m, r2) := TakeUnit(r1, "month");
    var (d, r3) := TakeUnit(r2, "day");
    if r3 == [] then Some((y, m, d)) else None
  }

  /** The age an uptime text denotes: "0 days", or the positive parts it lists. */
  function ParseUptime(s: string): Option<(nat, nat, nat)>
  {
    match ParseItems(s)
    case None => None
    case Some(items) => if items == [Item(0, "days")] then Some((0, 0, 0)) else Interpret(items)
  }

  function Clamp(n: int): nat
  {
    if n > 0 then n else 0
  }

  // ---------------------------------------------------------------------------------------
  // The round trip.

  function ItemText(it: Item): string
  {
    NatDigits(it.count) + " " + it.word
  }

  function ItemTexts(items: seq<Item>): (r: seq<string>)
    ensures |r| == |items|
  {
    if |items| == 0 then [] else [ItemText(items[0])] + ItemTexts(items[1..])
  }

  lemma {:induction false} DigitSpanOf(p: string, q: string)
    requires AllDigits(p)
    requires q == "" || !IsDigit(q[0])
    ensures DigitSpan(p + q) == |p|
  {
    if |p| > 0 {
      assert (p + q)[1..] == p[1..] + q;
      DigitSpanOf(p[1..], q);
    }
  }

  lemma {:induction false} LetterSpanOf(p: string, q: string)
    requires forall i :: 0 <= i < |p| ==> IsLetter(p[i])
    requires q == "" || !IsLetter(q[0])
    ensures LetterSpan(p + q) == |p|
  {
    if |p| > 0 {
      assert (p + q)[1..] == p[1..] + q;
      LetterSpanOf(p[1..], q);
    }
  }

  /** An item's text followed by a tail that cannot continue its word is read as that item. */
  lemma ParseItemOf(it: Item, tail: string)
    requires IsWord(it.word)
    requires tail == "" || !IsLetter(tail[0])
    ensures ParseItem(ItemText(it) + tail) == Some((it, tail))
  {
    var digits := NatDigits(it.count);
    var rest := it.word + tail;
    var s := ItemText(it) + tail;
    var k := |digits|;
    Pieces(digits, ' ', it.word, tail);
    DigitSpanOf(digits, [' '] + rest);
    NatDigitsValue(it.count);
    LetterSpanOf(it.word, tail);
    Pieces([], ' ', it.word, tail);
    ParseItemBy(s, k, |it.word|);
  }

  lemma Pieces<T>(a: seq<T>, x: T, b: seq<T>, c: seq<T>)
    ensures var s := a + [x] + b + c;
      && s == a + ([x] + (b + c))
      && s[..|a|] == a && s[|a|] == x && s[|a| + 1..] == b + c
      && (b + c)[..|b|] == b && (b + c)[|b|..] == c
  {
    var s := a + [x] + b + c;
    assert s == a + ([x] + (b + c));
  }

  /** How ParseItem reads s once the digit run and the word that follows are measured. */
  lemma ParseItemBy(s: string, k: nat, w: nat)
    requires k == DigitSpan(s) && 0 < k < |s| && s[k] == ' '
    requires w == LetterSpan(s[k + 1..]) && w > 0
    ensures ParseItem(s) == Some((Item(DigitsValue(s[..k]), s[k + 1..][..w]), s[k + 1..][w..]))
  {
  }

  lemma {:induction false} ParseItemsJoin(items: seq<Item>)
    requires |items| >= 1
    requires forall i :: 0 <= i < |items| ==> IsWord(items[i].word)
    ensures ParseItems(Join(ItemTexts(items), ", ")) == Some(items)
  {
    if |items| == 1 {
      ParseItemsSingle(items[0]);
      assert items == [items[0]];
    } else {
      ParseItemsJoin(items[1..]);
      ParseItemsCons(items);
    }
  }

  lemma ParseItemsSingle(it: Item)
    requires IsWord(it.word)
    ensures ParseItems(Join(ItemTexts([it]), ", ")) == Some([it])
  {
    var text := Join(ItemTexts([it]), ", ");
    assert text == ItemText(it) + "";
    ParseItemOf(it, "");
    ParseItemsLast(text, it);
  }

  lemma ParseItemsCons(items: seq<Item>)
    requires |items| >= 2 && IsWord(items[0].word)
    requires ParseItems(Join(ItemTexts(items[1..]), ", ")) == Some(items[1..])
    ensures ParseItems(Join(ItemTexts(items), ", ")) == Some(items)
  {
    var it := items[0];
    var text := Join(ItemTexts(items), ", ");
    var rest := Join(ItemTexts(items[1..]), ", ");
    assert text == ItemText(it) + (", " + rest) by {
      assert ItemTexts(items)[1..] == ItemTexts(items[1..]);
    }
    ParseItemOf(it, ", " + rest);
    ParseItemsNext(text, it, rest, items[1..]);
    assert [it] + items[1..] == items;
  }

  /** An item that covers all of s is the only item of s. */
  lemma ParseItemsLast(s: string, item: Item)
    requires ParseItem(s) == Some((item, ""))
    ensures ParseItems(s) == Some([item])
  {
  }

  /** An item followed by ", " and a list of items is read as the item, then that list. */
  lemma ParseItemsNext(s: string, item: Item, rest: string, items: seq<Item>)
    requires ParseItem(s) == Some((item, ", " + rest))
    requires ParseItems(rest) == Some(items)
    ensures ParseItems(s) == Some([item] + items)
  {
    var tail := ", " + rest;
    assert tail[..2] == ", " && tail[2..] == rest;
    assert |tail| <= |s| by {
      ParseItemShorter(s);
    }
  }

  /** What follows an item is a suffix of the text it was read from. */
  lemma ParseItemShorter(s: string)
    requires ParseItem(s).Some?
    ensures |ParseItem(s).value.1| < |s|
  {
  }

  /** The items UptimeText writes: the positive components with their plural-agreeing words. */
  function ItemsOf(years: int, months: int, days: int): seq<Item>
  {
    (if years > 0 then [Item(years, Plural(years, "year"))] else [])
    + (if months > 0 then [Item(months, Plural(months, "month"))] else [])
    + (if days > 0 then [Item(days, Plural(days, "day"))] else [])
  }

  lemma {:induction false} ItemTextsAppend(a: seq<Item>, b: seq<Item>)
    ensures ItemTexts(a + b) == ItemTexts(a) + ItemTexts(b)
  {
    if |a| == 0 {
      assert a + b == b;
    } else {
      assert (a + b)[1..] == a[1..] + b;
      ItemTextsAppend(a[1..], b);
      assert ItemTexts(a + b) == [ItemText(a[0])] + ItemTexts(a[1..] + b);
    }
  }

  lemma PartIsItemText(count: int, unit: string)
    requires count > 0
    ensures Part(count, unit) == ItemText(Item(count, Plural(count, unit)))
  {
  }

  lemma PartsAreItemTexts(years: int, months: int, days: int)
    ensures Parts(years, months, days) == ItemTexts(ItemsOf(years, months, days))
  {
    var ys := if years > 0 then [Item(years, Plural(years, "year"))] else [];
    var ms := if months > 0 then [Item(months, Plural(months, "month"))] else [];
    var ds := if days > 0 then [Item(days, Plural(days, "day"))] else [];
    ItemTextsAppend(ys, ms);
    ItemTextsAppend(ys + ms, ds);
    if years > 0 {
      PartIsItemText(years, "year");
      assert ItemTexts(ys) == [ItemText(ys[0])] + ItemTexts([]);
    }
    assert ItemTexts(ys) == (if years > 0 then [Part(years, "year")] else []);
    if months > 0 {
      PartIsItemText(months, "month");
      assert ItemTexts(ms) == [ItemText(ms[0])] + ItemTexts([]);
    }
    assert ItemTexts(ms) == (if months > 0 then [Part(months, "month")] else []);
    if days > 0 {
      PartIsItemText(days, "day");
      assert ItemTexts(ds) == [ItemText(ds[0])] + ItemTexts([]);
    }
    assert ItemTexts(ds) == (if days > 0 then [Part(days, "day")] else []);
  }

  lemma InterpretItemsOf(years: int, months: int, days: int)
    ensures Interpret(ItemsOf(years, months, days)) == Some((Clamp(years), Clamp(months), Clamp(days)))
  {
    var ms := if months > 0 then [Item(months, Plural(months, "month"))] else [];
    var ds := if days > 0 then [Item(days, Plural(days, "day"))] else [];
    var items := ItemsOf(years, months, days);
    var r1 := TakeUnit(items, "year").1;
    assert r1 == ms + ds by {
      if years <= 0 && |ms + ds| > 0 {
        assert items[0].word[0] != 'y';
      }
    }
    var r2 := TakeUnit(r1, "month").1;
    assert r2 == ds by {
      if months <= 0 && |ds| > 0 {
        assert r1[0].word[0] != 'm';
      }
    }
  }

  /** Reading the uptime text back recovers the age, with non-positive components as zero. */
  lemma UptimeRoundTrip(years: int, months: int, days: int)
    ensures ParseUptime(UptimeText(years, months, days)) == Some((Clamp(years), Clamp(months), Clamp(days)))
  {
    PartsAreItemTexts(years, months, days);
    if |ItemsOf(years, months, days)| == 0 {
      NoneShown(years, months, days);
    } else {
      SomeShown(years, months, days);
    }
  }

  lemma NoneShown(years: int, months: int, days: int)
    requires Parts(years, months, days) == ItemTexts(ItemsOf(years, months, days))
    requires |ItemsOf(years, months, days)| == 0
    ensures ParseUptime(UptimeText(years, months, days)) == Some((Clamp(years), Clamp(months), Clamp(days)))
  {
    var zero := Item(0, "days");
    assert UptimeText(years, months, days) == Join(ItemTexts([zero]), ", ");
    ParseItemsJoin([zero]);
  }

  lemma SomeShown(years: int, months: int, days: int)
    requires Parts(years, months, days) == ItemTexts(ItemsOf(years, months, days))
    requires |ItemsOf(years, months, days)| > 0
    ensures ParseUptime(UptimeText(years, months, days)) == Some((Clamp(years), Clamp(months), Clamp(days)))
  {
    var items := ItemsOf(years, months, days);
    assert UptimeText(years, months, days) == Join(ItemTexts(items), ", ");
    ParseItemsJoin(items);
    assert items[0].count > 0;
    InterpretItemsOf(years, months, days);
  }

  /** The text is "0 days" exactly when no component is positive. */
  lemma UptimeZero(years: int, months: int, days: int)
    ensures UptimeText(years, months, days) == "0 days" <==> years <= 0 && months <= 0 && days <= 0
  {
    UptimeRoundTrip(years, months, days);
    UptimeRoundTrip(0, 0, 0);
  }
}
