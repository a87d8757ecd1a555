/** The GitHub statistics panel (components/features/GithubStats.tsx): which
    panel it shows for the state of its request to the statistics handler,
    the figures it reads from a successful answer, the weeks its heat map
    draws and the shade of each day. */
module GithubStatsView {
  import opened Text
  import opened GithubStreaks
  import L = GithubLanguages
  import R = GithubRoute

  /** The state of the request: still loading, failed (the network or the
      JSON parse threw), or answered with the handler's body. */
  datatype Request = Loading | Failed | Answered(body: R.Outcome)

  /** The four figures of the stats grid. */
  datatype Figures = Figures(
    totalContributions: Option<int>,
    currentStreak: nat,
    longestStreak: nat,
    mostUsed: string)

  datatype Panel =
    | LoadingPanel
    | ErrorPanel
    | Dashboard(figures: Figures, languages: seq<L.Language>, recentWeeks: seq<Week>)

  const HeatMapWeeks: nat := 20

  /** `weeks.slice(-20)`: the last twenty weeks, or all of them when there
      are fewer. */
  function RecentWeeks(weeks: seq<Week>): (r: seq<Week>)
    ensures |r| == if |weeks| <= HeatMapWeeks then |weeks| else HeatMapWeeks
    ensures weeks == weeks[..|weeks| - |r|] + r
  {
    if |weeks| <= HeatMapWeeks then weeks else weeks[|weeks| - HeatMapWeeks..]
  }

  /** `stats?.languages[0]?.name || 'N/A'`: the first (largest) language,
      unless there is none or its name is empty. */
  function MostUsed(languages: seq<L.Language>): (name: string)
    ensures name == "N/A" || (|languages| > 0 && name == languages[0].name)
    ensures name == "N/A" <== (languages == [] || languages[0].name == "")
    ensures languages != [] && languages[0].name != "" ==> name == languages[0].name
  {
    if languages == [] || languages[0].name == "" then "N/A" else languages[0].name
  }

  /** The weeks the panel reads from the user: none when the calendar is
      absent (`...?.weeks || []`). */
  function WeeksOf(u: R.User): seq<Week>
  {
    match u.calendar
    case None => []
    case Some(c) => c.weeks
  }

  /** What the component renders (GithubStats.tsx:11-32). Every error body
      of the handler has an `error` field, whatever its HTTP status. */
  function Render(req: Request): (p: Panel)
    ensures p.LoadingPanel? <==> req.Loading?
    ensures p.ErrorPanel? <==> req.Failed? || (req.Answered? && req.body.Error?)
    ensures p.Dashboard? ==>
      && req.Answered? && req.body.Success?
      && p.languages == req.body.stats.languages
      && p.recentWeeks == RecentWeeks(WeeksOf(req.body.user))
      && p.figures == Figures(req.body.stats.totalContributions, req.body.stats.currentStreak,
                              req.body.stats.longestStreak, MostUsed(req.body.stats.languages))
  {
    match req
    case Loading => LoadingPanel
    case Failed => ErrorPanel
    case Answered(body) =>
      if body.Error? then ErrorPanel
      else
        var stats := body.stats;
        Dashboard(
          Figures(stats.totalContributions, stats.currentStreak, stats.longestStreak, MostUsed(stats.languages)),
          stats.languages,
          RecentWeeks(WeeksOf(body.user)))
  }

  /** A GraphQL error is answered with status 200, yet the panel still shows
      the error, because it looks at the body and not at the status. */
  lemma GraphQLErrorShowsErrorPanel()
    ensures R.IsOk(R.StatusOf(R.GraphQLError))
    ensures Render(Answered(R.Error(R.GraphQLError))) == ErrorPanel
  {
  }

  /** When the dashboard names a most used language, it is a language of
      the fold at least as large as every other one. */
  lemma MostUsedIsLargest(repos: seq<L.Repo>)
    ensures var edges := L.AllEdges(repos);
      var all := L.ToLanguages(L.FoldTable(edges), L.SumSizes(edges));
      var top := L.TopLanguages(L.FoldTable(edges), L.SumSizes(edges));
      MostUsed(top) != "N/A" ==>
        && top[0] in all
        && forall y :: y in all ==> y.size <= top[0].size
  {
    var edges := L.AllEdges(repos);
    var table := L.FoldTable(edges);
    var total := L.SumSizes(edges);
    var all := L.ToLanguages(table, total);
    var top := L.TopLanguages(table, total);
    if MostUsed(top) != "N/A" {
      L.FoldTableMeaning(edges);
      L.TopLanguagesShape(table, total);
      L.TopLanguagesKeepsLargest(table, total);
      forall y | y in all ensures y.size <= top[0].size {
        if y in top {
          var k :| 0 <= k < |top| && top[k] == y;
          assert L.SortedBySize(top);
        }
      }
    }
  }

  // ---------------------------------------------------------------------
  // Heat map shading

  /** The shades of the heat map, palest first. */
  const Palette: seq<string> :=
    ["bg-[#1a1a1a]", "bg-green-900/40", "bg-green-800/60", "bg-green-600", "bg-green-400"]

  /** The counts a day must exceed to reach each darker shade. */
  const Thresholds: seq<int> := [0, 2, 5, 10]

  /** How many of `thresholds` the count exceeds. */
  function Exceeded(thresholds: seq<int>, count: int): (n: nat)
    ensures n <= |thresholds|
  {
    if thresholds == [] then 0
    else (if count > thresholds[0] then 1 else 0) + Exceeded(thresholds[1..], count)
  }

  /** The shade level of a day: the number of thresholds its count exceeds. */
  function Level(count: int): (n: nat)
    ensures n < |Palette|
  {
    Exceeded(Thresholds, count)
  }

  /** `Level` with the thresholds spelt out one by one. */
  lemma LevelUnfold(count: int)
    ensures Level(count) == (if count > 0 then 1 else 0) + (if count > 2 then 1 else 0)
                          + (if count > 5 then 1 else 0) + (if count > 10 then 1 else 0)
  {
    var t := Thresholds;
    assert t[0] == 0 && t[1..][0] == 2 && t[1..][1..][0] == 5 && t[1..][1..][1..][0] == 10;
    assert t[1..][1..][1..][1..] == [];
    assert Exceeded(t[1..][1..][1..], count) == (if count > 10 then 1 else 0);
    assert Exceeded(t[1..][1..], count) == (if count > 5 then 1 else 0) + (if count > 10 then 1 else 0);
    assert Exceeded(t[1..], count) == (if count > 2 then 1 else 0) + (if count > 5 then 1 else 0) + (if count > 10 then 1 else 0);
    assert Level(count) == Exceeded(t, count);
  }

  /** The cell colour of one day (GithubStats.tsx:104-108): each later test
      overrides the earlier ones. */
  method Shade(count: int) returns (bgColor: string)
    ensures bgColor == Palette[Level(count)]
  {
    LevelUnfold(count);
    bgColor := "bg-[#1a1a1a]";
    if count > 0 { bgColor := "bg-green-900/40"; }
    if count > 2 { bgColor := "bg-green-800/60"; }
    if count > 5 { bgColor := "bg-green-600"; }
    if count > 10 { bgColor := "bg-green-400"; }
  }

  /** The levels by range of the count: 0 or less, 1-2, 3-5, 6-10, above 10. */
  lemma LevelRanges(count: int)
    ensures Level(count) == 0 <==> count <= 0
    ensures Level(count) == 1 <==> 1 <= count <= 2
    ensures Level(count) == 2 <==> 3 <= count <= 5
    ensures Level(count) == 3 <==> 6 <= count <= 10
    ensures Level(count) == 4 <==> count > 10
  {
    LevelUnfold(count);
  }

  /** More contributions never give a paler shade. */
  lemma {:induction false} ExceededMonotone(thresholds: seq<int>, c1: int, c2: int)
    requires c1 <= c2
    ensures Exceeded(thresholds, c1) <= Exceeded(thresholds, c2)
  {
    if thresholds != [] {
      ExceededMonotone(thresholds[1..], c1, c2);
    }
  }

  lemma LevelMonotone(c1: int, c2: int)
    requires c1 <= c2
    ensures Level(c1) <= Level(c2)
  {
    ExceededMonotone(Thresholds, c1, c2);
  }

  /** A day is shaded differently from an empty cell exactly when it is
      active, so the heat map shows the days the streaks count. */
  lemma ShadedIffActive(d: Day)
    ensures Palette[Level(d.count)] != Palette[0] <==> d.count > 0
  {
    LevelRanges(d.count);
  }
}
