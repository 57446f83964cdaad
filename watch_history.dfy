/** The watch-history page: the viewing rows of a user, newest first, grouped by show, and the
    show ids and titles derived from the grouping. The rows come from a table query, which is
    a parameter here. */
module WatchHistory {
  import opened Wrappers
  import Seqs

  /** A `watch_history` row, cut down to the fields the page reads. */
  datatype Entry = Entry(showId: string, showTitle: string, episode: string, watchedAt: int)

  /** One show's group: the title of the first row seen for it, and its rows. */
  datatype Group = Group(showId: string, showTitle: string, episodes: seq<Entry>)

  /** The accumulator object: its groups by show id, and the order in which its keys were
      first added, which is the order `Object.keys` and `Object.values` list them in. */
  datatype Grouping = Grouping(order: seq<string>, groups: map<string, Group>)

  /** `data || []`. */
  function Rows(data: Option<seq<Entry>>): seq<Entry> {
    if data.Some? then data.value else []
  }

  /** The show id of every row, in row order. */
  function ShowIds(entries: seq<Entry>): (ids: seq<string>)
    ensures |ids| == |entries| && forall i :: 0 <= i < |entries| ==> ids[i] == entries[i].showId
  {
    seq(|entries|, i requires 0 <= i < |entries| => entries[i].showId)
  }

  /** The rows of one show, in row order. */
  function EpisodesOf(entries: seq<Entry>, id: string): (r: seq<Entry>)
    ensures |r| <= |entries|
    ensures forall k :: 0 <= k < |r| ==> r[k].showId == id
  {
    if entries == [] then []
    else
      var last := entries[|entries| - 1];
      EpisodesOf(entries[..|entries| - 1], id) + if last.showId == id then [last] else []
  }

  /** The groups after the rows `rows`: one per show with a row, holding that show's rows and
      titled by the first of them. */
  ghost predicate GroupsOf(rows: seq<Entry>, acc: map<string, Group>) {
    (forall id :: id in acc <==> id in ShowIds(rows))
    && (forall id :: id in acc ==>
          acc[id].showId == id && acc[id].episodes == EpisodesOf(rows, id)
          && |acc[id].episodes| > 0 && acc[id].showTitle == acc[id].episodes[0].showTitle)
  }

  /** What the accumulator holds after the rows `rows`: its keys in order of first appearance,
      and the groups of those rows. */
  ghost predicate Accumulated(rows: seq<Entry>, order: seq<string>, acc: map<string, Group>) {
    order == Seqs.Dedup(ShowIds(rows)) && GroupsOf(rows, acc)
  }

  /** `(data || []).reduce(...)`: the accumulator starts empty; a row whose show has no group
      yet opens one with the row's title; every row is pushed onto its show's group. */
  method GroupByShow(data: Option<seq<Entry>>) returns (grouped: Grouping)
    ensures Accumulated(Rows(data), grouped.order, grouped.groups)
  {
    var entries := if data.Some? then data.value else [];
    var order: seq<string> := [];
    var acc: map<string, Group> := map[];
    for i := 0 to |entries|
      invariant Accumulated(entries[..i], order, acc)
    {
      var entry := entries[i];
      ghost var acc0 := acc;
      PrefixStep(entries, i);
      if entry.showId !in acc {
        acc := acc[entry.showId := Group(entry.showId, entry.showTitle, [])];
        order := order + [entry.showId];
      }
      ghost var withGroup := acc;
      acc := acc[entry.showId := acc[entry.showId].(episodes := acc[entry.showId].episodes + [entry])];
      GroupStep(entries[..i], entry, acc0, withGroup, acc);
      Seqs.DedupSnoc(ShowIds(entries[..i]), entry.showId);
    }
    assert entries[..|entries|] == entries;
    grouped := Grouping(order, acc);
  }

  lemma PrefixStep(entries: seq<Entry>, i: nat)
    requires i < |entries|
    ensures entries[..i + 1] == entries[..i] + [entries[i]]
    ensures ShowIds(entries[..i + 1]) == ShowIds(entries[..i]) + [entries[i].showId]
  {
    assert entries[..i + 1] == entries[..i] + [entries[i]];
  }

  /** One row of the `reduce`, on the groups. */
  lemma GroupStep(prev: seq<Entry>, e: Entry, acc: map<string, Group>, withGroup: map<string, Group>,
                  acc': map<string, Group>)
    requires GroupsOf(prev, acc)
    requires withGroup == (if e.showId in acc then acc else acc[e.showId := Group(e.showId, e.showTitle, [])])
    requires acc' == withGroup[e.showId := withGroup[e.showId].(episodes := withGroup[e.showId].episodes + [e])]
    ensures GroupsOf(prev + [e], acc')
  {
    var rows := prev + [e];
    assert rows[..|rows| - 1] == prev;
    var ids := ShowIds(rows);
    assert ids == ShowIds(prev) + [e.showId];
    forall id ensures id in acc' <==> id in ids {
      assert id in ids <==> id in ShowIds(prev) || id == e.showId;
    }
    forall id | id in acc'
      ensures acc'[id].showId == id && acc'[id].episodes == EpisodesOf(rows, id)
      ensures |acc'[id].episodes| > 0 && acc'[id].showTitle == acc'[id].episodes[0].showTitle
    {
      if id == e.showId {
        assert EpisodesOf(rows, id) == EpisodesOf(prev, id) + [e];
        if e.showId !in acc {
          EpisodesOfNonEmpty(prev, e.showId);
          assert EpisodesOf(prev, id) == [];
          assert acc'[id] == Group(id, e.showTitle, [] + [e]);
        } else {
          assert acc'[id] == acc[id].(episodes := acc[id].episodes + [e]);
        }
      } else {
        assert acc'[id] == acc[id];
        assert EpisodesOf(rows, id) == EpisodesOf(prev, id) + [];
      }
    }
  }

  // ---------------------------------------------------------------- what the grouping promises

  /** Every row is in the group of its own show, and in no other. */
  lemma {:induction false} RowInItsGroup(entries: seq<Entry>, i: nat)
    requires i < |entries|
    ensures entries[i] in EpisodesOf(entries, entries[i].showId)
    ensures forall id :: id != entries[i].showId ==> entries[i] !in EpisodesOf(entries, id)
    decreases |entries|
  {
    var n := |entries| - 1;
    if i < n {
      RowInItsGroup(entries[..n], i);
    }
  }

  /** A show has a non-empty group exactly when one of the rows is for it. */
  lemma {:induction false} EpisodesOfNonEmpty(entries: seq<Entry>, id: string)
    ensures |EpisodesOf(entries, id)| > 0 <==> id in ShowIds(entries)
    decreases |entries|
  {
    if entries != [] {
      var p := entries[..|entries| - 1];
      EpisodesOfNonEmpty(p, id);
      assert ShowIds(entries) == ShowIds(p) + [entries[|entries| - 1].showId];
    }
  }

  /** The number of rows over a list of distinct shows. */
  function CountRows(entries: seq<Entry>, ids: seq<string>): nat {
    if ids == [] then 0 else |EpisodesOf(entries, ids[0])| + CountRows(entries, ids[1..])
  }

  /** Adding one row for show `id` adds one to the count of a list of distinct shows that
      contains `id`, and nothing to one that does not. */
  lemma {:induction false} CountRowsSnoc(entries: seq<Entry>, e: Entry, ids: seq<string>)
    requires Seqs.Distinct(ids)
    ensures CountRows(entries + [e], ids) == CountRows(entries, ids) + if e.showId in ids then 1 else 0
  {
    var s := entries + [e];
    assert s[..|s| - 1] == entries;
    if ids != [] {
      assert Seqs.Distinct(ids[1..]) by {
        forall a, b | 0 <= a < b < |ids[1..]| ensures ids[1..][a] != ids[1..][b] {
          assert ids[1..][a] == ids[a + 1] && ids[1..][b] == ids[b + 1];
        }
      }
      CountRowsSnoc(entries, e, ids[1..]);
      if e.showId == ids[0] {
        assert e.showId !in ids[1..];
      }
    }
  }

  lemma {:induction false} CountRowsAppendId(entries: seq<Entry>, ids: seq<string>, id: string)
    ensures CountRows(entries, ids + [id]) == CountRows(entries, ids) + |EpisodesOf(entries, id)|
  {
    if ids != [] {
      assert (ids + [id])[1..] == ids[1..] + [id];
      CountRowsAppendId(entries, ids[1..], id);
    }
  }

  /** The groups together hold exactly as many rows as the input. */
  lemma {:induction false} GroupsCoverAllRows(entries: seq<Entry>)
    ensures CountRows(entries, Seqs.Dedup(ShowIds(entries))) == |entries|
    decreases |entries|
  {
    if entries != [] {
      var n := |entries| - 1;
      var p := entries[..n];
      var e := entries[n];
      assert entries == p + [e];
      var ids := ShowIds(entries);
      assert ids[..|ids| - 1] == ShowIds(p);
      var r := Seqs.Dedup(ShowIds(p));
      GroupsCoverAllRows(p);
      CountRowsSnoc(p, e, r);
      if e.showId !in r {
        CountRowsAppendId(entries, r, e.showId);
        assert e.showId !in ShowIds(p);
        EpisodesOfNonEmpty(p, e.showId);
        assert EpisodesOf(entries, e.showId) == [e];
      }
    }
  }

  /** Rows newest first. */
  predicate NewestFirst(entries: seq<Entry>) {
    forall a, b :: 0 <= a < b < |entries| ==> entries[a].watchedAt >= entries[b].watchedAt
  }

  /** A group keeps the order of the rows, so with rows newest first each group is too. */
  lemma {:induction false} GroupsNewestFirst(entries: seq<Entry>, id: string)
    requires NewestFirst(entries)
    ensures NewestFirst(EpisodesOf(entries, id))
    ensures forall k :: 0 <= k < |EpisodesOf(entries, id)| ==> EpisodesOf(entries, id)[k] in entries
    decreases |entries|
  {
    if entries != [] {
      var n := |entries| - 1;
      var p := entries[..n];
      assert NewestFirst(p);
      GroupsNewestFirst(p, id);
      var r := EpisodesOf(p, id);
      forall k | 0 <= k < |r| ensures r[k].watchedAt >= entries[n].watchedAt {
        var j :| 0 <= j < |p| && p[j] == r[k];
      }
    }
  }

  // ---------------------------------------------------------------- derived lists

  /** `Object.keys(watchHistory)`, handed to the recommendations. */
  function WatchedIds(grouped: Grouping): seq<string> {
    grouped.order
  }

  /** `Object.values(watchHistory).map(({ showTitle }) => showTitle)`. */
  function WatchedTitles(grouped: Grouping): (titles: seq<string>)
    requires forall k :: 0 <= k < |grouped.order| ==> grouped.order[k] in grouped.groups
    ensures |titles| == |WatchedIds(grouped)|
    ensures forall k :: 0 <= k < |titles| ==> titles[k] == grouped.groups[grouped.order[k]].showTitle
  {
    seq(|grouped.order|, k requires 0 <= k < |grouped.order| => grouped.groups[grouped.order[k]].showTitle)
  }

  /** The grouping of the page: one key per distinct show, listed once each in the order of
      the shows' first rows, and one title per key, the title of that show's first row. */
  lemma GroupingLists(data: Option<seq<Entry>>, grouped: Grouping)
    requires Accumulated(Rows(data), grouped.order, grouped.groups)
    ensures Seqs.Distinct(WatchedIds(grouped))
    ensures forall id :: id in WatchedIds(grouped) <==> id in grouped.groups
    ensures forall k :: 0 <= k < |WatchedIds(grouped)| ==>
              WatchedTitles(grouped)[k] == EpisodesOf(Rows(data), WatchedIds(grouped)[k])[0].showTitle
  {
    var ids := ShowIds(Rows(data));
    forall id | id in grouped.groups ensures id in grouped.order {
      var i :| 0 <= i < |ids| && ids[i] == id;
    }
  }

  /** No rows (or no data) give no groups. */
  lemma NoRowsNoGroups(grouped: Grouping)
    requires Accumulated(Rows(None), grouped.order, grouped.groups)
    ensures grouped.order == [] && grouped.groups == map[]
  {
  }
}
