/** The GitHub statistics handler `GET` (app/api/github/route.ts): one
    GraphQL request, whose outcome is sorted into an error response or the
    user's data with derived statistics. The request itself is left to the
    caller: its outcome is a parameter, and so is `today`, which the handler
    takes from the wall clock. */
module GithubRoute {
  import opened Text
  import opened GithubStreaks
  import L = GithubLanguages

  /** `contributionsCollection.contributionCalendar`. */
  datatype Calendar = Calendar(totalContributions: int, weeks: seq<Week>)

  /** `data.user`: the calendar (possibly absent) and the owned repositories. */
  datatype User = User(calendar: Option<Calendar>, repos: seq<L.Repo>)

  /** A parsed GraphQL response body: whether its `errors` field is
      truthy, and its `data.user`, if any. */
  datatype GraphQL = GraphQL(hasErrors: bool, user: Option<User>)

  /** What the request produced: no response at all (the `fetch` threw), or
      a response with its status and its body, which may not be JSON
      (then `response.json()` throws). */
  datatype Upstream = Unreachable | Response(status: int, body: Option<GraphQL>)

  /** The `stats` object added to the user. */
  datatype Stats = Stats(
    totalContributions: Option<int>,
    currentStreak: nat,
    longestStreak: nat,
    languages: seq<L.Language>)

  /** Why the handler answered with an `error` field. */
  datatype Failure =
    | HttpError(upstreamStatus: int)   // route.ts:50-55
    | GraphQLError                     // route.ts:59-62
    | UserNotFound                     // route.ts:66-68
    | Thrown                           // route.ts:147-150

  datatype Outcome = Error(failure: Failure) | Success(user: User, stats: Stats)

  /** `response.ok`: a status in the 2xx range. */
  predicate IsOk(status: int)
  {
    200 <= status <= 299
  }

  /** The HTTP status the handler answers each failure with. */
  function StatusOf(f: Failure): (status: int)
    ensures f.HttpError? ==> status == f.upstreamStatus
    ensures f == GraphQLError ==> status == 200
    ensures f == UserNotFound ==> status == 404
    ensures f == Thrown ==> status == 500
  {
    match f
    case HttpError(s) => s
    case GraphQLError => 200
    case UserNotFound => 404
    case Thrown => 500
  }

  /** The `Authorization` header (route.ts:44). There is no check for a
      missing token: the template literal turns `undefined` into text. */
  function AuthorizationHeader(token: Option<string>): (h: string)
    ensures |h| >= 7 && h[..7] == "Bearer "
    ensures token.None? ==> h[7..] == "undefined"
    ensures token.Some? ==> h[7..] == token.value
  {
    "Bearer " + match token case Some(t) => t case None => "undefined"
  }

  /** The days the streak scans see: the flattened weeks, or none when the
      calendar is absent (`calendar?.weeks || []`). */
  function DaysOf(u: User): seq<Day>
  {
    match u.calendar
    case None => []
    case Some(c) => Flatten(c.weeks)
  }

  /** The handler (route.ts:40-150). The checks run in order and the first
      failing one decides the answer; only when all pass are the statistics
      computed. */
  method Get(upstream: Upstream, today: string) returns (outcome: Outcome)
    ensures upstream.Unreachable? ==> outcome == Error(Thrown)
    ensures upstream.Response? && !IsOk(upstream.status) ==> outcome == Error(HttpError(upstream.status))
    ensures upstream.Response? && IsOk(upstream.status) ==>
      match upstream.body
      case None => outcome == Error(Thrown)
      case Some(g) =>
        if g.hasErrors then outcome == Error(GraphQLError)
        else if g.user.None? then outcome == Error(UserNotFound)
        else outcome.Success? && outcome.user == g.user.value
    ensures outcome.Success? ==>
      var days := DaysOf(outcome.user);
      var edges := L.AllEdges(outcome.user.repos);
      && outcome.stats.currentStreak == CurrentRun(days, today)
      && IsLongestRun(days, outcome.stats.longestStreak)
      && outcome.stats.languages == L.TopLanguages(L.FoldTable(edges), L.SumSizes(edges))
      && outcome.stats.totalContributions
           == (match outcome.user.calendar case None => None case Some(c) => Some(c.totalContributions))
  {
    if upstream.Unreachable? {
      return Error(Thrown);
    }
    if !IsOk(upstream.status) {
      return Error(HttpError(upstream.status));
    }
    if upstream.body.None? {
      return Error(Thrown);
    }
    var json := upstream.body.value;
    if json.hasErrors {
      return Error(GraphQLError);
    }
    if json.user.None? {
      return Error(UserNotFound);
    }
    var user := json.user.value;
    var days := DaysOf(user);
    var longestStreak := LongestStreak(days);
    var currentStreak := CurrentStreak(days, today);
    var table, totalSize := L.BuildLanguageTable(user.repos);
    var languages := L.TopLanguages(table, totalSize);
    var total := match user.calendar case None => None case Some(c) => Some(c.totalContributions);
    outcome := Success(user, Stats(total, currentStreak, longestStreak, languages));
  }

  /** Only a non-2xx response passes the upstream status through; every
      other failure answers with a fixed status, and a GraphQL error is
      reported with 200. */
  lemma FailureStatuses(f: Failure)
    requires f.HttpError? ==> !IsOk(f.upstreamStatus)
    ensures IsOk(StatusOf(f)) <==> f == GraphQLError
  {
  }

  /** The statistics of a successful answer obey the streak and language
      properties together: with ascending dates the current streak is at
      most the longest, and every language's percentage lies in 0..100. */
  lemma SuccessStats(user: User, today: string, stats: Stats)
    requires DatesAscending(DaysOf(user))
    requires IsLongestRun(DaysOf(user), stats.longestStreak)
    requires stats.currentStreak == CurrentRun(DaysOf(user), today)
    requires stats.languages
      == L.TopLanguages(L.FoldTable(L.AllEdges(user.repos)), L.SumSizes(L.AllEdges(user.repos)))
    ensures stats.currentStreak <= stats.longestStreak
    ensures |stats.languages| <= 5
    ensures forall k :: 0 <= k < |stats.languages| ==> 0.0 <= stats.languages[k].percentage <= 100.0
  {
    CurrentAtMostLongest(DaysOf(user), today, stats.longestStreak);
    var edges := L.AllEdges(user.repos);
    L.FoldTableMeaning(edges);
    L.TopLanguagesShape(L.FoldTable(edges), L.SumSizes(edges));
    forall k | 0 <= k < |stats.languages|
      ensures 0.0 <= stats.languages[k].percentage <= 100.0
    {
      L.PercentagesInRange(user.repos, k);
    }
  }
}
