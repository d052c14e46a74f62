/**
 * The nutrition arithmetic the client components share: each meal entry contributes
 * `macro * quantity / 100` of its food item, entries whose item cannot be fetched are
 * skipped, and the raw sums are rounded once at the end (calories to a whole number,
 * grams to one decimal). Numbers are exact reals.
 */
module Nutrition {

  /** The four nutrient values of a food item per 100 units, or of a sum. */
  datatype Macros = Macros(calories: real, proteins: real, carbohydrates: real, fat: real)

  const Zero := Macros(0.0, 0.0, 0.0, 0.0)

  function Plus(a: Macros, b: Macros): Macros
  {
    Macros(a.calories + b.calories, a.proteins + b.proteins, a.carbohydrates + b.carbohydrates, a.fat + b.fat)
  }

  /** A meal entry as the client reads it from a day log. */
  datatype Entry = Entry(foodItemId: string, quantity: real)

  /** A day log as fetched: its slot lists in the order of the JSON object's keys. */
  datatype MealList = MealList(key: string, items: seq<Entry>)

  /**
   * `day[key] || []`: the list of the slot with that key, or the empty list. A key written
   * twice in the JSON text holds the value written last, as `JSON.parse` keeps it.
   */
  function ItemsOf(day: seq<MealList>, key: string): (r: seq<Entry>)
    ensures (forall i :: 0 <= i < |day| ==> day[i].key != key) ==> r == []
    ensures forall i :: 0 <= i < |day| && day[i].key == key && (forall j :: i < j < |day| ==> day[j].key != key)
                        ==> r == day[i].items
  {
    if day == [] then []
    else if day[|day| - 1].key == key then day[|day| - 1].items
    else ItemsOf(day[..|day| - 1], key)
  }

  /** What fetching a food item gives: its details, a response that is not ok, or an exception. */
  datatype Lookup = Found(item: Macros) | NotOk | Failed

  /** One entry's share of the total: its item's macros scaled by `quantity / 100`, or nothing. */
  function Contribution(e: Entry, lookup: string -> Lookup): (r: Macros)
    ensures !lookup(e.foodItemId).Found? ==> r == Zero
    ensures lookup(e.foodItemId).Found? ==>
      var m := lookup(e.foodItemId).item;
      r == Macros(m.calories * (e.quantity / 100.0), m.proteins * (e.quantity / 100.0),
                  m.carbohydrates * (e.quantity / 100.0), m.fat * (e.quantity / 100.0))
  {
    match lookup(e.foodItemId)
    case Found(m) =>
      var k := e.quantity / 100.0;
      Macros(m.calories * k, m.proteins * k, m.carbohydrates * k, m.fat * k)
    case _ => Zero
  }

  /** An entry's share depends only on what its own item's lookup gives. */
  lemma SameLookupSameContribution(e: Entry, l1: string -> Lookup, l2: string -> Lookup)
    requires l1(e.foodItemId) == l2(e.foodItemId) || (!l1(e.foodItemId).Found? && !l2(e.foodItemId).Found?)
    ensures Contribution(e, l1) == Contribution(e, l2)
  {
  }

  /** The raw sums over `entries`, accumulated from the first entry to the last. */
  function Total(entries: seq<Entry>, lookup: string -> Lookup): (r: Macros)
    ensures entries == [] ==> r == Zero
  {
    if entries == [] then Zero
    else Plus(Total(entries[..|entries| - 1], lookup), Contribution(entries[|entries| - 1], lookup))
  }

  /** Adding one entry at the end adds its share. */
  lemma TotalSnoc(s: seq<Entry>, x: Entry, lookup: string -> Lookup)
    ensures Total(s + [x], lookup) == Plus(Total(s, lookup), Contribution(x, lookup))
  {
    assert (s + [x])[..|s|] == s;
  }

  /** Summing two lists one after the other adds their sums. */
  lemma {:induction false} TotalAppend(a: seq<Entry>, b: seq<Entry>, lookup: string -> Lookup)
    ensures Total(a + b, lookup) == Plus(Total(a, lookup), Total(b, lookup))
    decreases |b|
  {
    if b == [] {
      assert a + b == a;
    } else {
      var c, x := b[..|b| - 1], b[|b| - 1];
      calc {
        Total(a + b, lookup);
        == { assert a + b == (a + c) + [x]; TotalSnoc(a + c, x, lookup); }
        Plus(Total(a + c, lookup), Contribution(x, lookup));
        == { TotalAppend(a, c, lookup); }
        Plus(Plus(Total(a, lookup), Total(c, lookup)), Contribution(x, lookup));
        Plus(Total(a, lookup), Plus(Total(c, lookup), Contribution(x, lookup)));
        == { assert b == c + [x]; TotalSnoc(c, x, lookup); }
        Plus(Total(a, lookup), Total(b, lookup));
      }
    }
  }

  /** An entry whose item cannot be fetched changes nothing; the entries around it still count. */
  lemma SkippedEntry(a: seq<Entry>, e: Entry, b: seq<Entry>, lookup: string -> Lookup)
    requires !lookup(e.foodItemId).Found?
    ensures Total(a + [e] + b, lookup) == Total(a + b, lookup)
  {
    TotalAppend(a + [e], b, lookup);
    TotalAppend(a, b, lookup);
    assert (a + [e])[..|a + [e]| - 1] == a;
  }

  /** The sums depend only on the items found: two lookups that agree on the entries give the same sums. */
  lemma {:induction false} TotalDependsOnlyOnEntries(entries: seq<Entry>, l1: string -> Lookup, l2: string -> Lookup)
    requires forall i :: 0 <= i < |entries| ==> Contribution(entries[i], l1) == Contribution(entries[i], l2)
    ensures Total(entries, l1) == Total(entries, l2)
  {
    if entries != [] {
      TotalDependsOnlyOnEntries(entries[..|entries| - 1], l1, l2);
    }
  }

  // ---------------------------------------------------------------------------
  // Rounding

  /** `Math.round(x)`, that is floor(x + 1/2): the integer nearest `x`, halves rounded up. */
  function Round(x: real): (r: int)
    ensures x - 0.5 < r as real <= x + 0.5
  {
    (x + 0.5).Floor
  }

  /** `Math.round(x * 10) / 10`: `x` to one decimal. */
  function RoundTenth(x: real): (r: real)
    ensures x - 0.05 < r <= x + 0.05
    ensures (r * 10.0).Floor as real == r * 10.0
  {
    Round(x * 10.0) as real / 10.0
  }

  /** Displayed totals: whole calories, grams to one decimal. */
  datatype Summary = Summary(calories: int, proteins: real, carbohydrates: real, fat: real)

  /** The rounding applied once to the raw sums. */
  function Rounded(m: Macros): (s: Summary)
    ensures m.calories - 0.5 < s.calories as real <= m.calories + 0.5
    ensures m.proteins - 0.05 < s.proteins <= m.proteins + 0.05
    ensures m.carbohydrates - 0.05 < s.carbohydrates <= m.carbohydrates + 0.05
    ensures m.fat - 0.05 < s.fat <= m.fat + 0.05
    ensures (s.proteins * 10.0).Floor as real == s.proteins * 10.0
    ensures (s.carbohydrates * 10.0).Floor as real == s.carbohydrates * 10.0
    ensures (s.fat * 10.0).Floor as real == s.fat * 10.0
  {
    Summary(Round(m.calories), RoundTenth(m.proteins), RoundTenth(m.carbohydrates), RoundTenth(m.fat))
  }

  /** Nothing eaten shows as all zeros. */
  lemma RoundedZero()
    ensures Rounded(Zero) == Summary(0, 0.0, 0.0, 0.0)
  {
    assert Round(0.0) == 0;
  }
}
