/**
 * Assembly of betting feeds from the college football data service: weeks 1 to 16 of the
 * current season are fetched in order, each game with all its required fields becomes one
 * feed, joined to the first betting line quoted for it.
 *
 * The two HTTP requests per week are replaced by an abstract outcome per (season, week):
 * the games, together with the outcome of the lines request, or the error the games request
 * failed with. A field the JSON leaves out is modelled by its falsy value (0 or "").
 */
module SportsData {
  import opened Wrappers

  /** How a request can fail: an HTTP error response, an HTTP error with no response, or anything else. */
  datatype RequestError = HttpError(status: int) | NoResponse | OtherError

  datatype Game = Game(
    id: int, season: int, week: int, seasonType: string, startDate: string,
    homeTeam: string, homeId: int, homePoints: Option<int>,
    awayTeam: string, awayId: int, awayPoints: Option<int>)

  datatype Line = Line(
    gameId: int, spread: Option<real>, overUnder: Option<real>,
    homeMoneyline: Option<int>, awayMoneyline: Option<int>, updated: string)

  datatype BettingFeed = BettingFeed(
    gameId: int, season: int, week: int, seasonType: string, gameDate: string,
    homeTeam: string, awayTeam: string, homeTeamId: int, awayTeamId: int,
    homeTeamScore: Option<int>, awayTeamScore: Option<int>,
    pointSpread: Option<real>, overUnder: Option<real>,
    homeTeamMoneyLine: Option<int>, awayTeamMoneyLine: Option<int>,
    updated: string)

  datatype LinesFetch = LinesOk(lines: seq<Line>) | LinesFailed(error: RequestError)

  /** The outcome of one week's requests; the lines are requested only once the games arrived. */
  datatype WeekFetch = GamesOk(games: seq<Game>, linesFetch: LinesFetch) | GamesFailed(error: RequestError)

  /** The outcome of a request whose body is not used. */
  datatype Probe = Success | Failure(error: RequestError)

  const FIRST_WEEK: int := 1
  const LAST_WEEK: int := 16

  /** The season whose feeds are fetched. */
  function GetCurrentSeason(): (season: int)
    ensures season == 2025
  {
    2025
  }

  /** An HTTP error response whose status is 404 Not Found. */
  predicate Is404(e: RequestError) {
    e.HttpError? && e.status == 404
  }

  /** A season counts as available unless probing it answers 404. */
  function IsSeasonAvailable(probe: Probe): (available: bool)
    ensures !available <==> probe.Failure? && Is404(probe.error)
    ensures probe == Success ==> available
  {
    match probe
    case Success => true
    case Failure(e) => !Is404(e)
  }

  /** Every field a feed requires is truthy. */
  predicate HasRequiredFields(g: Game) {
    && g.id != 0 && g.season != 0 && g.week != 0
    && g.seasonType != "" && g.startDate != ""
    && g.homeTeam != "" && g.awayTeam != ""
    && g.homeId != 0 && g.awayId != 0
  }

  /** The lines a week's games are joined to; a failed lines request leaves none. */
  function LinesOf(f: LinesFetch): (lines: seq<Line>)
    ensures f.LinesOk? ==> lines == f.lines
    ensures f.LinesFailed? ==> lines == []
  {
    match f
    case LinesOk(lines) => lines
    case LinesFailed(_) => []
  }

  /** The lines quoted for one game, in list order. */
  function LinesForGame(lines: seq<Line>, gameId: int): (r: seq<Line>)
    ensures forall j :: 0 <= j < |r| ==> r[j].gameId == gameId
    ensures r == [] <==> forall i :: 0 <= i < |lines| ==> lines[i].gameId != gameId
    decreases |lines|
  {
    if lines == [] then []
    else (if lines[0].gameId == gameId then [lines[0]] else []) + LinesForGame(lines[1..], gameId)
  }

  /** The game's primary line: the first of its lines, if it has any. */
  function PrimaryLine(lines: seq<Line>, gameId: int): (r: Option<Line>)
    ensures r.None? <==> forall i :: 0 <= i < |lines| ==> lines[i].gameId != gameId
    ensures r.Some? ==> r.value.gameId == gameId
  {
    var gameLines := LinesForGame(lines, gameId);
    if |gameLines| > 0 then Some(gameLines[0]) else None
  }

  /** The primary line is the earliest line in the list that quotes the game. */
  lemma {:induction false} PrimaryLineIsFirst(lines: seq<Line>, gameId: int, k: nat)
    requires k < |lines| && lines[k].gameId == gameId
    requires forall j :: 0 <= j < k ==> lines[j].gameId != gameId
    ensures PrimaryLine(lines, gameId) == Some(lines[k])
    decreases k
  {
    if k > 0 {
      PrimaryLineIsFirst(lines[1..], gameId, k - 1);
      assert lines[0].gameId != gameId;
    }
  }

  /** The feed's update stamp: the primary line's when it is non-empty, otherwise `now`. */
  function UpdatedStamp(primary: Option<Line>, now: string): (stamp: string)
    ensures primary.Some? && primary.value.updated != "" ==> stamp == primary.value.updated
    ensures primary.None? || primary.value.updated == "" ==> stamp == now
  {
    if primary.Some? && primary.value.updated != "" then primary.value.updated else now
  }

  /** The feed for a game and its primary line. */
  function MakeFeed(g: Game, primary: Option<Line>, now: string): (f: BettingFeed)
    ensures && f.gameId == g.id && f.season == g.season && f.week == g.week
            && f.seasonType == g.seasonType && f.gameDate == g.startDate
            && f.homeTeam == g.homeTeam && f.awayTeam == g.awayTeam
            && f.homeTeamId == g.homeId && f.awayTeamId == g.awayId
            && f.homeTeamScore == g.homePoints && f.awayTeamScore == g.awayPoints
    ensures primary.None? ==>
      f.pointSpread.None? && f.overUnder.None? && f.homeTeamMoneyLine.None? && f.awayTeamMoneyLine.None?
    ensures primary.Some? ==>
      && f.pointSpread == primary.value.spread && f.overUnder == primary.value.overUnder
      && f.homeTeamMoneyLine == primary.value.homeMoneyline && f.awayTeamMoneyLine == primary.value.awayMoneyline
    ensures f.updated == UpdatedStamp(primary, now)
    ensures HasRequiredFields(g) ==> Complete(f)
  {
    BettingFeed(
      g.id, g.season, g.week, g.seasonType, g.startDate,
      g.homeTeam, g.awayTeam, g.homeId, g.awayId,
      g.homePoints, g.awayPoints,
      if primary.Some? then primary.value.spread else None,
      if primary.Some? then primary.value.overUnder else None,
      if primary.Some? then primary.value.homeMoneyline else None,
      if primary.Some? then primary.value.awayMoneyline else None,
      UpdatedStamp(primary, now))
  }

  /** The feeds of one week: a feed per game with its required fields, in game order. */
  function WeekFeeds(games: seq<Game>, lines: seq<Line>, now: string): (feeds: seq<BettingFeed>)
    ensures |feeds| <= |games|
    ensures forall f :: f in feeds ==> Complete(f)
    decreases |games|
  {
    if games == [] then []
    else
      var g := games[0];
      (if HasRequiredFields(g) then [MakeFeed(g, PrimaryLine(lines, g.id), now)] else [])
        + WeekFeeds(games[1..], lines, now)
  }

  /** The feeds of weeks `week` to 16: stop at the first 404, skip a week that failed otherwise. */
  function FeedsFrom(fetch: (int, int) -> WeekFetch, season: int, week: int, now: string): (feeds: seq<BettingFeed>)
    ensures week > LAST_WEEK ==> feeds == []
    ensures forall f :: f in feeds ==> Complete(f)
    decreases LAST_WEEK + 1 - week
  {
    if week > LAST_WEEK then []
    else
      match fetch(season, week)
      case GamesFailed(e) =>
        if Is404(e) then [] else FeedsFrom(fetch, season, week + 1, now)
      case GamesOk(games, linesFetch) =>
        WeekFeeds(games, LinesOf(linesFetch), now) + FeedsFrom(fetch, season, week + 1, now)
  }

  // ---------------------------------------------------------------------------------------
  // Reference definitions and the properties of feed assembly

  function KeepValid(games: seq<Game>): (r: seq<Game>)
    decreases |games|
  {
    if games == [] then []
    else (if HasRequiredFields(games[0]) then [games[0]] else []) + KeepValid(games[1..])
  }

  function FeedsOf(games: seq<Game>, lines: seq<Line>, now: string): (r: seq<BettingFeed>)
    ensures |r| == |games|
    ensures forall i :: 0 <= i < |games| ==> r[i] == MakeFeed(games[i], PrimaryLine(lines, games[i].id), now)
    decreases |games|
  {
    if games == [] then []
    else [MakeFeed(games[0], PrimaryLine(lines, games[0].id), now)] + FeedsOf(games[1..], lines, now)
  }

  lemma {:induction false} FeedsOfAppend(a: seq<Game>, b: seq<Game>, lines: seq<Line>, now: string)
    ensures FeedsOf(a + b, lines, now) == FeedsOf(a, lines, now) + FeedsOf(b, lines, now)
  {
    var l, r := FeedsOf(a + b, lines, now), FeedsOf(a, lines, now) + FeedsOf(b, lines, now);
    assert |l| == |r|;
    forall i | 0 <= i < |l| ensures l[i] == r[i] {
      if i < |a| {
        assert (a + b)[i] == a[i];
      } else {
        assert (a + b)[i] == b[i - |a|];
      }
    }
  }

  /** A week's feeds are its valid games, in order, each made into a feed: nothing reordered, nothing duplicated. */
  lemma {:induction false} WeekFeedsAreValidGames(games: seq<Game>, lines: seq<Line>, now: string)
    ensures WeekFeeds(games, lines, now) == FeedsOf(KeepValid(games), lines, now)
    decreases |games|
  {
    if games != [] {
      WeekFeedsAreValidGames(games[1..], lines, now);
      var head := if HasRequiredFields(games[0]) then [games[0]] else [];
      FeedsOfAppend(head, KeepValid(games[1..]), lines, now);
    }
  }

  /** Every feed of a week comes from a game of that week with all its required fields. */
  lemma {:induction false} WeekFeedOrigin(games: seq<Game>, lines: seq<Line>, now: string, k: nat)
    requires k < |WeekFeeds(games, lines, now)|
    ensures exists i :: (0 <= i < |games| && HasRequiredFields(games[i]) &&
      WeekFeeds(games, lines, now)[k] == MakeFeed(games[i], PrimaryLine(lines, games[i].id), now))
    decreases |games|
  {
    var g := games[0];
    var head := if HasRequiredFields(g) then [MakeFeed(g, PrimaryLine(lines, g.id), now)] else [];
    var tail := WeekFeeds(games[1..], lines, now);
    assert WeekFeeds(games, lines, now) == head + tail;
    if k < |head| {
      assert WeekFeeds(games, lines, now)[k] == MakeFeed(games[0], PrimaryLine(lines, games[0].id), now);
    } else {
      WeekFeedOrigin(games[1..], lines, now, k - |head|);
      var i :| 0 <= i < |games[1..]| && HasRequiredFields(games[1..][i])
        && tail[k - |head|] == MakeFeed(games[1..][i], PrimaryLine(lines, games[1..][i].id), now);
      assert WeekFeeds(games, lines, now)[k] == tail[k - |head|];
      assert games[i + 1] == games[1..][i];
    }
  }

  /** A game's feed carries the line data of the first line quoted for it. */
  lemma FeedJoinsFirstLine(g: Game, lines: seq<Line>, now: string, k: nat)
    requires k < |lines| && lines[k].gameId == g.id
    requires forall j :: 0 <= j < k ==> lines[j].gameId != g.id
    ensures var f := MakeFeed(g, PrimaryLine(lines, g.id), now);
      && f.pointSpread == lines[k].spread && f.overUnder == lines[k].overUnder
      && f.homeTeamMoneyLine == lines[k].homeMoneyline && f.awayTeamMoneyLine == lines[k].awayMoneyline
      && f.updated == (if lines[k].updated != "" then lines[k].updated else now)
  {
    PrimaryLineIsFirst(lines, g.id, k);
  }

  /** A game no line quotes gets a feed with no line data, stamped `now`. */
  lemma FeedWithoutLine(g: Game, lines: seq<Line>, now: string)
    requires forall i :: 0 <= i < |lines| ==> lines[i].gameId != g.id
    ensures var f := MakeFeed(g, PrimaryLine(lines, g.id), now);
      && f.pointSpread.None? && f.overUnder.None? && f.homeTeamMoneyLine.None? && f.awayTeamMoneyLine.None?
      && f.updated == now
  {
  }

  /** When the lines request fails, the week still yields a feed per valid game, each without line data. */
  lemma {:induction false} FailedLinesKeepGames(games: seq<Game>, e: RequestError, now: string)
    ensures WeekFeeds(games, LinesOf(LinesFailed(e)), now) == FeedsOf(KeepValid(games), [], now)
    ensures forall k :: 0 <= k < |WeekFeeds(games, LinesOf(LinesFailed(e)), now)| ==>
      var f := WeekFeeds(games, LinesOf(LinesFailed(e)), now)[k];
      f.pointSpread.None? && f.overUnder.None? && f.homeTeamMoneyLine.None? && f.awayTeamMoneyLine.None?
      && f.updated == now
  {
    WeekFeedsAreValidGames(games, [], now);
  }

  /** Two fetch outcomes that agree from `week` on give the same feeds from `week` on. */
  lemma {:induction false} AgreeingFetches(fetch: (int, int) -> WeekFetch, other: (int, int) -> WeekFetch,
                                           season: int, week: int, now: string)
    requires forall w :: week <= w <= LAST_WEEK ==> other(season, w) == fetch(season, w)
    ensures FeedsFrom(other, season, week, now) == FeedsFrom(fetch, season, week, now)
    decreases LAST_WEEK + 1 - week
  {
    if week <= LAST_WEEK {
      AgreeingFetches(fetch, other, season, week + 1, now);
    }
  }

  /** Weeks after the first 404 are never looked at. */
  lemma {:induction false} StopsAtFirst404(fetch: (int, int) -> WeekFetch, other: (int, int) -> WeekFetch,
                                           season: int, week: int, stop: int, now: string)
    requires week <= stop <= LAST_WEEK
    requires fetch(season, stop).GamesFailed? && Is404(fetch(season, stop).error)
    requires forall w :: week <= w <= stop ==> other(season, w) == fetch(season, w)
    ensures FeedsFrom(other, season, week, now) == FeedsFrom(fetch, season, week, now)
    decreases stop - week
  {
    if week < stop {
      StopsAtFirst404(fetch, other, season, week + 1, stop, now);
    }
  }

  /** A week whose games request fails with anything but 404 contributes nothing and the loop goes on. */
  lemma {:induction false} SkipsFailedWeek(fetch: (int, int) -> WeekFetch, other: (int, int) -> WeekFetch,
                                           season: int, week: int, skipped: int, now: string)
    requires week <= skipped <= LAST_WEEK
    requires fetch(season, skipped).GamesFailed? && !Is404(fetch(season, skipped).error)
    requires other(season, skipped) == GamesOk([], LinesOk([]))
    requires forall w :: w != skipped ==> other(season, w) == fetch(season, w)
    ensures FeedsFrom(fetch, season, week, now) == FeedsFrom(other, season, week, now)
    decreases LAST_WEEK + 1 - week
  {
    if week < skipped {
      SkipsFailedWeek(fetch, other, season, week + 1, skipped, now);
    } else {
      AgreeingFetches(fetch, other, season, week + 1, now);
      assert WeekFeeds([], [], now) == [];
    }
  }

  /** Every field a feed copies from a game's required fields is truthy. */
  predicate Complete(f: BettingFeed) {
    && f.gameId != 0 && f.season != 0 && f.week != 0 && f.seasonType != "" && f.gameDate != ""
    && f.homeTeam != "" && f.awayTeam != "" && f.homeTeamId != 0 && f.awayTeamId != 0
  }

  /** A week answered with 404 ends the collection: the feeds gathered so far are all there are. */
  lemma StopAtWeek(fetch: (int, int) -> WeekFetch, season: int, week: int, now: string,
                   feeds: seq<BettingFeed>, total: seq<BettingFeed>)
    requires week <= LAST_WEEK
    requires fetch(season, week).GamesFailed? && Is404(fetch(season, week).error)
    requires feeds + FeedsFrom(fetch, season, week, now) == total
    ensures feeds == total
  {
  }

  /** A week whose games request failed otherwise contributes nothing, and the next week follows. */
  lemma SkipWeek(fetch: (int, int) -> WeekFetch, season: int, week: int, now: string,
                 feeds: seq<BettingFeed>, total: seq<BettingFeed>)
    requires week <= LAST_WEEK
    requires fetch(season, week).GamesFailed? && !Is404(fetch(season, week).error)
    requires feeds + FeedsFrom(fetch, season, week, now) == total
    ensures feeds + FeedsFrom(fetch, season, week + 1, now) == total
  {
  }

  /** A week with games contributes its feeds, ahead of those of the later weeks. */
  lemma TakeWeek(fetch: (int, int) -> WeekFetch, season: int, week: int, now: string,
                 feeds: seq<BettingFeed>, next: seq<BettingFeed>, total: seq<BettingFeed>)
    requires week <= LAST_WEEK
    requires fetch(season, week).GamesOk?
    requires feeds + FeedsFrom(fetch, season, week, now) == total
    requires next == feeds + WeekFeeds(fetch(season, week).games, LinesOf(fetch(season, week).linesFetch), now)
    ensures next + FeedsFrom(fetch, season, week + 1, now) == total
  {
    var week0 := WeekFeeds(fetch(season, week).games, LinesOf(fetch(season, week).linesFetch), now);
    var rest := FeedsFrom(fetch, season, week + 1, now);
    assert FeedsFrom(fetch, season, week, now) == week0 + rest;
    ConcatAssociates(feeds, week0, rest);
  }

  /**
   * Concatenation regroups. Dafny knows this, but stating it as a separate step keeps
   * `TakeWeek` cheap for the solver; inline, the same step costs several times as much.
   */
  lemma ConcatAssociates(a: seq<BettingFeed>, b: seq<BettingFeed>, c: seq<BettingFeed>)
    ensures (a + b) + c == a + (b + c)
  {
  }

  /** Combines one week's games with its lines, appending a feed per valid game to `feeds0`. */
  method AppendWeekFeeds(feeds0: seq<BettingFeed>, games: seq<Game>, lines: seq<Line>, now: string)
    returns (feeds: seq<BettingFeed>)
    ensures feeds == feeds0 + WeekFeeds(games, lines, now)
  {
    feeds := feeds0;
    var i := 0;
    while i < |games|
      invariant 0 <= i <= |games|
      invariant feeds + WeekFeeds(games[i..], lines, now) == feeds0 + WeekFeeds(games, lines, now)
    {
      var game := games[i];
      assert games[i..][1..] == games[i + 1..];
      if !HasRequiredFields(game) {
        i := i + 1;
        continue;
      }
      var primary := PrimaryLine(lines, game.id);
      feeds := feeds + [MakeFeed(game, primary, now)];
      i := i + 1;
    }
    assert games[i..] == [];
  }

  /**
   * Fetches weeks 1 to 16 of the current season in order and collects the feeds of each
   * week's valid games; stops at the first week answered with 404 and skips a week whose
   * games request failed otherwise.
   */
  method GetBettingFeeds(fetch: (int, int) -> WeekFetch, now: string) returns (feeds: seq<BettingFeed>)
    ensures feeds == FeedsFrom(fetch, GetCurrentSeason(), FIRST_WEEK, now)
  {
    var season := GetCurrentSeason();
    feeds := [];
    var week := FIRST_WEEK;
    ghost var total := FeedsFrom(fetch, season, week, now);
    while week <= LAST_WEEK
      invariant FIRST_WEEK <= week <= LAST_WEEK + 1
      invariant feeds + FeedsFrom(fetch, season, week, now) == total
      decreases LAST_WEEK + 1 - week
    {
      var response := fetch(season, week);
      if response.GamesFailed? {
        if Is404(response.error) {
          StopAtWeek(fetch, season, week, now, feeds, total);
          break;
        }
        SkipWeek(fetch, season, week, now, feeds, total);
        week := week + 1;
        continue;
      }
      var lines := LinesOf(response.linesFetch);
      ghost var before := feeds;
      feeds := AppendWeekFeeds(feeds, response.games, lines, now);
      TakeWeek(fetch, season, week, now, before, feeds, total);
      week := week + 1;
    }
  }
}
