/** The recommendations panel: a search term derived from the watched shows, the text or id
    search of the provider client, and the results with the watched shows removed, at most
    five of them. The shuffle of the keywords is a parameter: any rearrangement of them. */
module RecommendedShows {
  import Text
  import Seqs
  import opened OmdbApi

  const STOP_WORDS: seq<string> := ["the", "and", "season", "show"]
  const MAX_RECOMMENDATIONS: nat := 5
  const MAX_PICKS: nat := 3
  const DEFAULT_TERM := "popular shows"

  // ---------------------------------------------------------------- keywords

  /** `toLowerCase` on one character, for the characters that can lower-case to a letter of a
      stop word: no character outside `A`-`Z` does. */
  function LowerAscii(c: char): char {
    if 'A' <= c <= 'Z' then (c as int + 32) as char else c
  }

  function Lower(s: string): (r: string)
    ensures |r| == |s| && forall i :: 0 <= i < |s| ==> r[i] == LowerAscii(s[i])
  {
    seq(|s|, i requires 0 <= i < |s| => LowerAscii(s[i]))
  }

  predicate IsStopWord(w: string) {
    Lower(w) in STOP_WORDS
  }

  /** The two filters of a word: longer than three UTF-16 units, and not a stop word. */
  predicate KeepKeyword(w: string) {
    Text.Utf16Length(w) > 3 && !IsStopWord(w)
  }

  /** `showTitles.flatMap(title => title.split(/\s+/))`. */
  function Words(titles: seq<string>): seq<string> {
    if titles == [] then [] else Text.SplitOnSpaces(titles[0]) + Words(titles[1..])
  }

  /** The two `filter` calls. */
  function FilterKeywords(words: seq<string>): (r: seq<string>)
    ensures |r| <= |words|
    ensures forall k :: 0 <= k < |r| ==> KeepKeyword(r[k]) && r[k] in words
  {
    if words == [] then []
    else (if KeepKeyword(words[0]) then [words[0]] else []) + FilterKeywords(words[1..])
  }

  function Keywords(titles: seq<string>): seq<string> {
    FilterKeywords(Words(titles))
  }

  /** Filtering keeps the order of the words: it distributes over concatenation. */
  lemma {:induction false} FilterKeywordsAppend(a: seq<string>, b: seq<string>)
    ensures FilterKeywords(a + b) == FilterKeywords(a) + FilterKeywords(b)
  {
    if a == [] {
      assert a + b == b;
    } else {
      assert (a + b)[0] == a[0] && (a + b)[1..] == a[1..] + b;
      FilterKeywordsAppend(a[1..], b);
    }
  }

  lemma {:induction false} FilterKeywordsMembers(words: seq<string>, w: string)
    ensures w in FilterKeywords(words) <==> w in words && KeepKeyword(w)
  {
    if words != [] {
      FilterKeywordsMembers(words[1..], w);
      assert words == [words[0]] + words[1..];
    }
  }

  lemma {:induction false} WordsMembers(titles: seq<string>, w: string)
    ensures w in Words(titles) <==> exists i :: 0 <= i < |titles| && w in Text.SplitOnSpaces(titles[i])
  {
    if titles != [] {
      WordsMembers(titles[1..], w);
      if w in Text.SplitOnSpaces(titles[0]) {
        assert titles[0] == titles[0];
      }
      if exists i :: 0 <= i < |titles| && w in Text.SplitOnSpaces(titles[i]) {
        var i :| 0 <= i < |titles| && w in Text.SplitOnSpaces(titles[i]);
        if i > 0 {
          assert titles[1..][i - 1] == titles[i];
        }
      }
    }
  }

  /** A keyword is exactly a white-space separated piece of some title that passes both
      filters. */
  lemma KeywordsExactly(titles: seq<string>, w: string)
    ensures w in Keywords(titles) <==>
              KeepKeyword(w) && exists i :: 0 <= i < |titles| && w in Text.SplitOnSpaces(titles[i])
  {
    FilterKeywordsMembers(Words(titles), w);
    WordsMembers(titles, w);
  }

  /** The keywords of more titles are the keywords of the first ones followed by those of the
      others. */
  lemma {:induction false} KeywordsAppend(a: seq<string>, b: seq<string>)
    ensures Keywords(a + b) == Keywords(a) + Keywords(b)
  {
    WordsAppend(a, b);
    FilterKeywordsAppend(Words(a), Words(b));
  }

  lemma {:induction false} WordsAppend(a: seq<string>, b: seq<string>)
    ensures Words(a + b) == Words(a) + Words(b)
  {
    if a == [] {
      assert a + b == b;
    } else {
      assert (a + b)[0] == a[0] && (a + b)[1..] == a[1..] + b;
      WordsAppend(a[1..], b);
    }
  }

  /** A keyword is never empty and never holds white space. */
  lemma KeywordShape(titles: seq<string>, k: nat)
    requires k < |Keywords(titles)|
    ensures Keywords(titles)[k] != [] && Text.NoSpace(Keywords(titles)[k])
  {
    var w := Keywords(titles)[k];
    WordsPieces(titles, w);
  }

  lemma {:induction false} WordsPieces(titles: seq<string>, w: string)
    requires w in Words(titles)
    ensures Text.NoSpace(w)
  {
    if w !in Text.SplitOnSpaces(titles[0]) {
      WordsPieces(titles[1..], w);
    }
  }

  /** "the" and "and" are three letters long, so the length filter already drops them: only
      "season" and "show" are ever removed by the stop-word filter. */
  lemma ShortStopWordsRedundant(w: string)
    ensures KeepKeyword(w) <==> Text.Utf16Length(w) > 3 && Lower(w) != "season" && Lower(w) != "show"
  {
    if Lower(w) == "the" || Lower(w) == "and" {
      assert |w| == 3;
      forall i | 0 <= i < |w| ensures w[i] as int < 0x10000 {
        assert LowerAscii(w[i]) == Lower(w)[i];
      }
      Text.Utf16LengthOfBmp(w);
    }
  }

  // ---------------------------------------------------------------- the search term

  /** `generateSearchTerms(showTitles)`, with `shuffled` the outcome of the random sort of the
      distinct keywords. */
  function SearchTerm(titles: seq<string>, shuffled: seq<string>): string {
    if |Keywords(titles)| > 2 then
      Text.Join(shuffled[..if |shuffled| < MAX_PICKS then |shuffled| else MAX_PICKS], " ")
    else if |titles| > 0 && titles[0] != "" then titles[0]
    else DEFAULT_TERM
  }

  /** `[...new Set(keywords)].sort(() => 0.5 - Math.random())`: some rearrangement. */
  predicate IsShuffle(titles: seq<string>, shuffled: seq<string>) {
    multiset(shuffled) == multiset(Seqs.Dedup(Keywords(titles)))
  }

  /** With more than two keywords, the term is one to three distinct keywords joined by single
      spaces: splitting it gives those keywords back. */
  lemma KeywordTerm(titles: seq<string>, shuffled: seq<string>)
    requires |Keywords(titles)| > 2 && IsShuffle(titles, shuffled)
    ensures var picks := shuffled[..if |shuffled| < MAX_PICKS then |shuffled| else MAX_PICKS];
            && Text.SplitOnSpaces(SearchTerm(titles, shuffled)) == picks
            && 1 <= |picks| <= MAX_PICKS
            && |picks| == (if |Seqs.Dedup(Keywords(titles))| < MAX_PICKS then |Seqs.Dedup(Keywords(titles))| else MAX_PICKS)
            && Seqs.Distinct(picks)
            && forall k :: 0 <= k < |picks| ==> picks[k] in Keywords(titles) && KeepKeyword(picks[k])
  {
    var keywords := Keywords(titles);
    var n := if |shuffled| < MAX_PICKS then |shuffled| else MAX_PICKS;
    var picks := shuffled[..n];
    ShuffledKeywords(titles, shuffled);
    assert keywords[0] in Seqs.Dedup(keywords);
    Text.SplitJoinRoundTrip(picks);
  }

  /** The shuffled keywords are the distinct keywords, each non-empty and free of white space. */
  lemma ShuffledKeywords(titles: seq<string>, shuffled: seq<string>)
    requires IsShuffle(titles, shuffled)
    ensures |shuffled| == |Seqs.Dedup(Keywords(titles))| && Seqs.Distinct(shuffled)
    ensures forall k :: 0 <= k < |shuffled| ==>
              shuffled[k] in Keywords(titles) && shuffled[k] != [] && Text.NoSpace(shuffled[k])
  {
    var keywords := Keywords(titles);
    var distinct := Seqs.Dedup(keywords);
    assert |shuffled| == |multiset(shuffled)| == |multiset(distinct)| == |distinct|;
    Seqs.PermutationOfDistinct(shuffled, distinct);
    forall k | 0 <= k < |shuffled| ensures shuffled[k] in keywords && shuffled[k] != [] && Text.NoSpace(shuffled[k]) {
      assert shuffled[k] in multiset(distinct);
      var j :| 0 <= j < |keywords| && keywords[j] == shuffled[k];
      KeywordShape(titles, j);
    }
  }

  /** With two keywords or fewer the term is the first title, or the default when there is no
      first title or it is empty. */
  lemma FallbackTerm(titles: seq<string>, shuffled: seq<string>)
    requires |Keywords(titles)| <= 2
    ensures SearchTerm(titles, shuffled) != ""
    ensures |titles| > 0 && titles[0] != "" ==> SearchTerm(titles, shuffled) == titles[0]
    ensures (|titles| == 0 || titles[0] == "") ==> SearchTerm(titles, shuffled) == DEFAULT_TERM
  {
  }

  // ---------------------------------------------------------------- the results

  /** `data.filter(show => !watchedShows.includes(show.imdbID))`. */
  function Unwatched(shows: seq<Body>, watched: seq<string>): (r: seq<Body>)
    ensures |r| <= |shows|
    ensures forall k :: 0 <= k < |r| ==> r[k] in shows && r[k].imdbId !in watched
  {
    if shows == [] then []
    else (if shows[0].imdbId in watched then [] else [shows[0]]) + Unwatched(shows[1..], watched)
  }

  /** The filter keeps the order of the results. */
  lemma {:induction false} UnwatchedAppend(a: seq<Body>, b: seq<Body>, watched: seq<string>)
    ensures Unwatched(a + b, watched) == Unwatched(a, watched) + Unwatched(b, watched)
  {
    if a == [] {
      assert a + b == b;
    } else {
      assert (a + b)[0] == a[0] && (a + b)[1..] == a[1..] + b;
      UnwatchedAppend(a[1..], b, watched);
    }
  }

  /** The filter drops exactly the watched shows. */
  lemma {:induction false} UnwatchedMembers(shows: seq<Body>, watched: seq<string>, s: Body)
    ensures s in Unwatched(shows, watched) <==> s in shows && s.imdbId !in watched
  {
    if shows != [] {
      UnwatchedMembers(shows[1..], watched, s);
      assert shows == [shows[0]] + shows[1..];
    }
  }

  /** `filteredShows.slice(0, 5)`. */
  function Recommend(shows: seq<Body>, watched: seq<string>): seq<Body> {
    var r := Unwatched(shows, watched);
    r[..if |r| < MAX_RECOMMENDATIONS then |r| else MAX_RECOMMENDATIONS]
  }

  /** At most five recommendations, none of them watched, the first unwatched results in
      result order. */
  lemma RecommendBounds(shows: seq<Body>, watched: seq<string>)
    ensures |Recommend(shows, watched)| <= MAX_RECOMMENDATIONS
    ensures forall k :: 0 <= k < |Recommend(shows, watched)| ==>
              Recommend(shows, watched)[k] in shows && Recommend(shows, watched)[k].imdbId !in watched
    ensures Recommend(shows, watched) <= Unwatched(shows, watched)
    ensures |Recommend(shows, watched)| == if |Unwatched(shows, watched)| < MAX_RECOMMENDATIONS
                                          then |Unwatched(shows, watched)| else MAX_RECOMMENDATIONS
  {
  }

  /** The panel as written: the term is derived from `watchedShows`, which both pages fill with
      show ids, and the results are filtered by the same list. No query runs for an empty list. */
  function RecommendationsAsWritten(key: string, watched: seq<string>, shuffled: seq<string>, replies: seq<Reply>)
    : (r: Run<seq<Body>>)
    ensures |watched| == 0 <==> r.sent == []
    ensures |r.value| <= MAX_RECOMMENDATIONS
    ensures forall k :: 0 <= k < |r.value| ==> r.value[k].imdbId !in watched
    ensures |watched| > 0 ==>
              var found := SearchShowsRun(key, SearchTerm(watched, shuffled), replies);
              r == Run(Recommend(found.value, watched), found.used, found.sent)
  {
    if |watched| == 0 then Run([], 0, [])
    else
      var found := SearchShowsRun(key, SearchTerm(watched, shuffled), replies);
      RecommendBounds(found.value, watched);
      Run(Recommend(found.value, watched), found.used, found.sent)
  }

  /** An IMDb id holds no white space, so it is a word of its own. */
  lemma ImdbIdIsOneWord(id: string)
    requires IsImdbId(id)
    ensures Text.SplitOnSpaces(id) == [id]
  {
    forall i | 0 <= i < |id| ensures !Text.IsSpace(id[i]) {
      if i >= 2 {
        assert id[2..][i - 2] == id[i];
      } else {
        assert id[..2][i] == id[i];
      }
    }
    Text.SplitWord(id, []);
    assert id + [] == id;
  }

  /** With one or two watched shows, the term is the first watched id; the id search finds that
      very show, and the watched filter removes it: nothing is recommended. */
  lemma FewWatchedIdsRecommendNothing(key: string, watched: seq<string>, shuffled: seq<string>, replies: seq<Reply>)
    requires 1 <= |watched| <= 2 && forall k :: 0 <= k < |watched| ==> IsImdbId(watched[k])
    requires DetailsRun(key, watched[0], replies).value.Data?
    requires DetailsRun(key, watched[0], replies).value.body.imdbId == watched[0]
    ensures RecommendationsAsWritten(key, watched, shuffled, replies).value == []
    ensures RecommendationsAsWritten(key, watched, shuffled, replies).sent == [ShowDetails(key, watched[0])]
  {
    ImdbIdIsOneWord(watched[0]);
    if |watched| == 2 {
      ImdbIdIsOneWord(watched[1]);
      assert watched[1..][0] == watched[1] && watched[1..][1..] == [];
    }
    if |watched| == 1 {
      assert Words(watched) == [watched[0]] + Words([]);
    } else {
      assert Words(watched) == [watched[0]] + ([watched[1]] + Words([]));
    }
    assert SearchTerm(watched, shuffled) == watched[0];
  }

  /** The panel as intended: the term is derived from the watched titles, and the results are
      filtered by the watched ids. */
  function Recommendations(key: string, titles: seq<string>, ids: seq<string>, shuffled: seq<string>, replies: seq<Reply>)
    : (r: Run<seq<Body>>)
    ensures |ids| == 0 <==> r.sent == []
    ensures |r.value| <= MAX_RECOMMENDATIONS
    ensures forall k :: 0 <= k < |r.value| ==> r.value[k].imdbId !in ids
    ensures |ids| > 0 ==>
              var found := SearchShowsRun(key, SearchTerm(titles, shuffled), replies);
              r == Run(Recommend(found.value, ids), found.used, found.sent)
  {
    if |ids| == 0 then Run([], 0, [])
    else
      var found := SearchShowsRun(key, SearchTerm(titles, shuffled), replies);
      RecommendBounds(found.value, ids);
      Run(Recommend(found.value, ids), found.used, found.sent)
  }

  /** With a single watched show whose title is not id-shaped, the intended panel runs a text
      search for the title, and recommends the first unwatched result whenever there is one. */
  lemma SingleTitleSearchesByTitle(key: string, title: string, id: string, shuffled: seq<string>, replies: seq<Reply>)
    requires title != "" && !IsImdbId(title) && |Keywords([title])| <= 2
    ensures Recommendations(key, [title], [id], shuffled, replies).sent == [SearchSeries(key, title)]
    ensures Recommendations(key, [title], [id], shuffled, replies).value
            == Recommend(TextSearchRun(key, title, replies).value, [id])
    ensures (exists s :: s in TextSearchRun(key, title, replies).value && s.imdbId != id) ==>
              |Recommendations(key, [title], [id], shuffled, replies).value| > 0
  {
    var shows := TextSearchRun(key, title, replies).value;
    if exists s :: s in shows && s.imdbId != id {
      var s :| s in shows && s.imdbId != id;
      UnwatchedMembers(shows, [id], s);
    }
  }

  /** The intended panel agrees with the written one whenever the titles passed are the ids,
      so the correction changes only what the term is derived from. */
  lemma RecommendationsOnIds(key: string, ids: seq<string>, shuffled: seq<string>, replies: seq<Reply>)
    ensures Recommendations(key, ids, ids, shuffled, replies) == RecommendationsAsWritten(key, ids, shuffled, replies)
  {
  }
}
