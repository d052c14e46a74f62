/**
 * Weight entries as the client holds them, and the ascending date sort that both the
 * profile page's statistics and the trend chart start from.
 */
module Weighings {
  import opened Text
  import opened Sorting

  /** A weight entry on the client: its `yyyy-MM-dd` date and its weight. */
  datatype Weighing = Weighing(date: string, weight: real)

  function WeighingDate(w: Weighing): string
  {
    w.date
  }

  /** `entries.sort((a, b) => new Date(a.date) - new Date(b.date))`. */
  function ByDate(entries: seq<Weighing>): (r: seq<Weighing>)
    ensures |r| == |entries|
    ensures SortedBy(r, WeighingDate)
    ensures multiset(r) == multiset(entries)
  {
    SortByCorrect(entries, WeighingDate);
    SortBy(entries, WeighingDate)
  }

  /** The last sorted entry is an entry with the latest date, the first one with the earliest. */
  lemma ByDateEnds(entries: seq<Weighing>)
    requires entries != []
    ensures var r := ByDate(entries);
      && r[|r| - 1] in entries && r[0] in entries
      && forall w :: w in entries ==> DateLe(w.date, r[|r| - 1].date) && DateLe(r[0].date, w.date)
  {
    SortByLastIsLatest(entries, WeighingDate);
    SortByFirstIsEarliest(entries, WeighingDate);
  }
}
