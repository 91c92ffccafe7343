/** The CSV export of `main`, reduced to its logic: the output file name and
    the row of each profile, whose keyword column is the sorted keyword set
    joined by `", "`. */
module Export {
  import Text
  import Ordering
  import opened Aggregate

  const KeywordSeparator: string := ", "

  /** The output file name: the company with spaces replaced by `_`, then
      `_`, the run timestamp and `.csv`. */
  function OutFilename(company: string, timestamp: string): (name: string)
    ensures ' ' !in timestamp ==> ' ' !in name
    ensures |name| >= 4 && name[|name| - 4..] == ".csv"
    ensures Text.ReplaceChar(company, ' ', "_") + "_" <= name
    ensures ' ' !in company ==> company + "_" <= name
    ensures |name| >= |timestamp| + 4
    ensures name[|name| - 4 - |timestamp|..|name| - 4] == timestamp
    ensures |name| == |Text.ReplaceChar(company, ' ', "_")| + 1 + |timestamp| + 4
  {
    Text.ReplaceChar(company, ' ', "_") + "_" + timestamp + ".csv"
  }

  /** Spaces in the company are written as `_`, so a company typed with
      underscores in their place gets the same file name. */
  lemma OutFilenameSpacesAsUnderscores(company: string, timestamp: string)
    ensures OutFilename(Text.ReplaceChar(company, ' ', "_"), timestamp) == OutFilename(company, timestamp)
  {
    var once := Text.ReplaceChar(company, ' ', "_");
    assert ' ' !in once;
  }

  /** The `matched_keywords` column: the keywords in sorted order, joined by
      `", "`. It depends on the keyword set alone. */
  method RenderKeywords(keywords: set<string>) returns (text: string)
    ensures text == Text.Join(Ordering.SortedOf(keywords), KeywordSeparator)
  {
    var sorted := Ordering.SortSet(keywords);
    text := Text.Join(sorted, KeywordSeparator);
  }

  /** One CSV row: name, headline, location, profile URL, keywords. */
  datatype Row = Row(name: string, headline: string, location: string,
                     profileUrl: string, matchedKeywords: string)

  /** The row written for one profile. */
  method RenderRow(url: string, e: Entry) returns (row: Row)
    ensures row.name == e.name && row.headline == e.headline && row.location == e.location
    ensures row.profileUrl == url
    ensures row.matchedKeywords == Text.Join(Ordering.SortedOf(e.keywords), KeywordSeparator)
  {
    var kws := RenderKeywords(e.keywords);
    row := Row(e.name, e.headline, e.location, url, kws);
  }

  /** Some row in `rows` is about `url`. */
  ghost predicate HasRow(rows: seq<Row>, url: string) {
    exists r :: r in rows && r.profileUrl == url
  }

  /** `r` is the row written for its profile. */
  ghost predicate RowMatches(profiles: Profiles, r: Row) {
    && r.profileUrl in profiles
    && r.name == profiles[r.profileUrl].name
    && r.headline == profiles[r.profileUrl].headline
    && r.location == profiles[r.profileUrl].location
    && r.matchedKeywords ==
         Text.Join(Ordering.SortedOf(profiles[r.profileUrl].keywords), KeywordSeparator)
  }

  /** The rows of the report: one per profile, or no file at all when no
      profile was collected. */
  method RenderRows(profiles: Profiles) returns (rows: seq<Row>, written: bool)
    ensures written <==> |profiles| > 0
    ensures |rows| == |profiles|
    ensures forall u :: u in profiles <==> HasRow(rows, u)
    ensures forall r :: r in rows ==> RowMatches(profiles, r)
  {
    rows := [];
    written := |profiles| > 0;
    var rest := profiles.Keys;
    while rest != {}
      invariant rest <= profiles.Keys
      invariant |rows| + |rest| == |profiles|
      invariant forall u :: u in profiles.Keys - rest ==> HasRow(rows, u)
      invariant forall r :: r in rows ==> RowMatches(profiles, r) && r.profileUrl !in rest
      decreases rest
    {
      var u :| u in rest;
      var row := RenderRow(u, profiles[u]);
      assert forall v :: HasRow(rows, v) ==> HasRow(rows + [row], v);
      rows := rows + [row];
      assert HasRow(rows, u);
      rest := rest - {u};
    }
  }
}
