/** The home page: the retry delay of its featured-show query, the rotation of the featured
    show, and the distinct ids of the shows the signed-in user has watched. */
module IndexPage {
  import opened Wrappers
  import Seqs
  import OmdbApi
  import WatchHistory

  const FEATURED_SHOWS: seq<string> := ["tt13443470", "tt7660850", "tt5834204"]
  const MIN_DELAY: nat := 1000
  const MAX_DELAY: nat := 30 * 1000

  // ---------------------------------------------------------------- retry delay

  /** `retryDelay(attempt)`: one second for the first retries, then `2^attempt` seconds, capped
      at thirty seconds. */
  function RetryDelay(attempt: nat): (ms: nat)
    ensures MIN_DELAY <= ms <= MAX_DELAY
    ensures attempt <= 1 ==> ms == MIN_DELAY
  {
    var raw := if attempt > 1 then OmdbApi.Pow2(attempt) * 1000 else 1000;
    if raw < MAX_DELAY then raw else MAX_DELAY
  }

  /** From the fifth attempt on the cap is reached; before that the delay doubles with each
      attempt, starting at four seconds. */
  lemma RetryDelayShape(attempt: nat)
    ensures 2 <= attempt <= 4 ==> RetryDelay(attempt) == OmdbApi.Pow2(attempt) * 1000
    ensures attempt >= 5 ==> RetryDelay(attempt) == MAX_DELAY
    ensures 2 <= attempt <= 3 ==> RetryDelay(attempt + 1) == 2 * RetryDelay(attempt)
  {
    assert OmdbApi.Pow2(4) == 16;
    if attempt >= 5 {
      if attempt > 5 {
        OmdbApi.Pow2Increasing(5, attempt);
      }
    }
  }

  /** The delay never shrinks as the attempts go on. */
  lemma RetryDelayMonotone(a: nat, b: nat)
    requires a <= b
    ensures RetryDelay(a) <= RetryDelay(b)
  {
    if 1 < a < b {
      OmdbApi.Pow2Increasing(a, b);
    }
  }

  // ---------------------------------------------------------------- carousel

  /** The interval's update `(prev + 1) % FEATURED_SHOWS.length`. */
  function NextShowIndex(prev: nat): (next: nat)
    ensures next < |FEATURED_SHOWS|
    ensures prev < |FEATURED_SHOWS| - 1 ==> next == prev + 1
    ensures prev == |FEATURED_SHOWS| - 1 ==> next == 0
  {
    (prev + 1) % |FEATURED_SHOWS|
  }

  /** The index after `ticks` intervals. */
  function IndexAfter(start: nat, ticks: nat): nat {
    if ticks == 0 then start else NextShowIndex(IndexAfter(start, ticks - 1))
  }

  /** From the first index, the rotation is the tick count modulo the number of shows. */
  lemma {:induction false} IndexAfterTicks(ticks: nat)
    ensures IndexAfter(0, ticks) == ticks % |FEATURED_SHOWS|
  {
    if ticks > 0 {
      IndexAfterTicks(ticks - 1);
    }
  }

  /** Any three consecutive ticks show every featured show exactly once. */
  lemma RotationVisitsAll(ticks: nat)
    ensures multiset([IndexAfter(0, ticks), IndexAfter(0, ticks + 1), IndexAfter(0, ticks + 2)]) == multiset{0, 1, 2}
  {
    IndexAfterTicks(ticks);
    IndexAfterTicks(ticks + 1);
    IndexAfterTicks(ticks + 2);
    var shown := [IndexAfter(0, ticks), IndexAfter(0, ticks + 1), IndexAfter(0, ticks + 2)];
    if ticks % 3 == 0 {
      assert shown == [0, 1, 2];
    } else if ticks % 3 == 1 {
      assert shown == [1, 2, 0];
    } else {
      assert shown == [2, 0, 1];
    }
  }

  /** The query of the featured show at an index: its key and the details request it makes. */
  function FeaturedQueryKey(index: nat): (key: seq<string>)
    requires index < |FEATURED_SHOWS|
    ensures |key| == 2 && key[0] == "show" && key[1] == FEATURED_SHOWS[index] && OmdbApi.IsImdbId(key[1])
  {
    assert FEATURED_SHOWS[index][..2] == "tt";
    ["show", FEATURED_SHOWS[index]]
  }

  // ---------------------------------------------------------------- watched ids

  /** `if (data) setWatchedShowIds([...new Set(data.map(item => item.show_id))])`: no data keeps
      the previous list. */
  function WatchedShowIds(previous: seq<string>, data: Option<seq<string>>): (ids: seq<string>)
    ensures data.None? ==> ids == previous
    ensures data.Some? ==> Seqs.Distinct(ids) && (forall id :: id in ids <==> id in data.value)
  {
    if data.Some? then Seqs.Dedup(data.value) else previous
  }

  /** The ids are listed in the order of their first rows. */
  lemma WatchedShowIdsOrder(previous: seq<string>, rows: seq<string>)
    ensures forall i, j :: 0 <= i < j < |WatchedShowIds(previous, Some(rows))| ==>
              Seqs.FirstIndex(rows, WatchedShowIds(previous, Some(rows))[i])
              < Seqs.FirstIndex(rows, WatchedShowIds(previous, Some(rows))[j])
  {
    Seqs.DedupKeepsFirstOccurrenceOrder(rows);
  }

  /** Given the same row sequence, the home page and the watch-history page hand the
      recommendations the same list of ids: the group keys of the history, in the same order.
      The two pages query the rows differently (the history newest first, the home page in no
      stated order), so in general only the set of ids is shared; see `SameIdSetAsHistory`. */
  lemma SameIdsAsHistory(entries: seq<WatchHistory.Entry>, grouped: WatchHistory.Grouping)
    requires WatchHistory.Accumulated(entries, grouped.order, grouped.groups)
    ensures WatchedShowIds([], Some(WatchHistory.ShowIds(entries))) == WatchHistory.WatchedIds(grouped)
  {
  }

  /** The home page's rows are the history rows in some order of their own: both pages then hand
      on the same set of ids, though not necessarily in the same order. */
  lemma SameIdSetAsHistory(homeRows: seq<string>, entries: seq<WatchHistory.Entry>, grouped: WatchHistory.Grouping)
    requires WatchHistory.Accumulated(entries, grouped.order, grouped.groups)
    requires multiset(homeRows) == multiset(WatchHistory.ShowIds(entries))
    ensures forall id :: id in WatchedShowIds([], Some(homeRows)) <==> id in WatchHistory.WatchedIds(grouped)
  {
    SameIdsAsHistory(entries, grouped);
    var historyRows := WatchHistory.ShowIds(entries);
    forall id
      ensures id in WatchedShowIds([], Some(homeRows)) <==> id in WatchHistory.WatchedIds(grouped)
    {
      calc {
        id in WatchedShowIds([], Some(homeRows));
        id in homeRows;
        id in multiset(homeRows);
        id in multiset(historyRows);
        id in historyRows;
        id in WatchedShowIds([], Some(historyRows));
      }
    }
  }
}
