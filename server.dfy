/**
 * The two prediction routes of the Fastify server: `/predict`, which runs
 * the legacy static model, and `/api/analysis/:fixture_id`, which repeats the
 * analysis pipeline of the serverless handler. An exception escaping a route
 * becomes Fastify's 500 reply carrying the error's message.
 */
module Server {
  import opened Wrappers
  import opened Utils
  import opened Analysis
  import DC = DixonColes

  /** The arguments `/predict` passes to `predictProbsStatic`: the two expected-goal rates and the grid size it defaults to. */
  datatype StaticArgs = StaticArgs(lambdaHome: real, lambdaAway: real, maxGoals: nat)

  const LegacyArgs: StaticArgs := StaticArgs(1.5, 1.2, 6)

  /**
   * The `/predict` reply: the fixture id, the fixture's fields and the
   * prediction, without the time stamp. The prediction is carried as the
   * arguments it is computed from; `PredictionOf` computes it.
   */
  datatype Predicted = Predicted(fixtureId: string, fixture: Fixture, args: StaticArgs)

  datatype ReplyBody = Message(error: string) | PredictReply(predicted: Predicted) | AnalysisReply(report: Report)

  datatype Reply = Reply(status: int, body: ReplyBody)

  /** `const { league = 'premier-league' } = req.query`: the default applies only to a missing parameter. */
  function QueryLeague(league: Option<string>): string {
    league.GetOr("premier-league")
  }

  /** The error `fetchLiveFixtures` throws for an unknown league key. */
  function UnsupportedLeague(key: string): string {
    "League '" + key + "' not supported"
  }

  /**
   * `predictProbsStatic(args)` as an expression: the static model reports
   * the two rates it was given as expected goals, and its probabilities sum to 1.
   */
  function PredictionOf(exp: DC.PosFn, args: StaticArgs): (pr: DC.Prediction)
    requires args.lambdaHome >= 0.0 && args.lambdaAway >= 0.0
    ensures pr.expectedGoalsHome == args.lambdaHome && pr.expectedGoalsAway == args.lambdaAway
    ensures pr.pHome + pr.pDraw + pr.pAway == 1.0
    ensures 0.0 <= pr.pHome <= 1.0 && 0.0 <= pr.pDraw <= 1.0 && 0.0 <= pr.pAway <= 1.0
  {
    var p := DC.StaticInputs(args.lambdaHome, args.lambdaAway, args.maxGoals);
    DC.StaticRoundTrip(args.lambdaHome, args.lambdaAway, args.maxGoals);
    DC.MassNonZero(exp, p);
    DC.PredictSumsToOne(exp, p);
    DC.PredictInUnitRange(exp, p);
    DC.Predict(exp, p)
  }

  /**
   * `GET /predict`, given the fixtures fetched for the league. Every
   * successful reply carries the same static arguments, whatever the fixture.
   */
  function PredictRoute(fixtureId: Option<string>, league: Option<string>, fixtures: seq<Fixture>): (r: Reply)
    ensures r.status == 400 <==> !Truthy(fixtureId)
    ensures r.status == 500 <==> Truthy(fixtureId) && QueryLeague(league) !in Leagues
    ensures r.status == 404 <==> Truthy(fixtureId) && QueryLeague(league) in Leagues && FindFixture(fixtures, fixtureId.value).None?
    ensures r.status == 200 <==> r.body.PredictReply?
    ensures r.body.PredictReply? ==>
      && r.body.predicted.fixtureId == fixtureId.value
      && r.body.predicted.fixture in fixtures && r.body.predicted.fixture.id == fixtureId.value
      && r.body.predicted.args == LegacyArgs
    ensures !r.body.PredictReply? ==> r.body.Message?
  {
    if !Truthy(fixtureId) then Reply(400, Message("fixture_id required"))
    else
      var key := QueryLeague(league);
      if key !in Leagues then Reply(500, Message(UnsupportedLeague(key)))
      else match FindFixture(fixtures, fixtureId.value)
        case None => Reply(404, Message("Fixture not found"))
        case Some(fixture) => Reply(200, PredictReply(Predicted(fixtureId.value, fixture, LegacyArgs)))
  }

  /**
   * `GET /api/analysis/:fixture_id`, given the fetched fixtures, results and
   * table. The path always holds an id, an unknown league throws in the
   * fixture fetch, and a negative `repeat` count throws while the report is built.
   */
  function AnalysisRoute(exp: DC.PosFn, fixtureId: string, league: Option<string>, fixtures: seq<Fixture>,
                         recent: seq<MatchResult>, standings: seq<Standing>): (r: Reply)
    ensures r.status == 500 <==> (QueryLeague(league) !in Leagues
      || (FindFixture(fixtures, fixtureId).Some?
          && Analyse(exp, FindFixture(fixtures, fixtureId).value, Leagues[QueryLeague(league)], recent, standings).InvalidCount?))
    ensures r.status == 404 <==> QueryLeague(league) in Leagues && FindFixture(fixtures, fixtureId).None?
    ensures r.status == 200 <==> r.body.AnalysisReply?
  {
    var key := QueryLeague(league);
    if key !in Leagues then Reply(500, Message(UnsupportedLeague(key)))
    else match FindFixture(fixtures, fixtureId)
      case None => Reply(404, Message("Fixture not found"))
      case Some(fixture) =>
        match Analyse(exp, fixture, Leagues[key], recent, standings)
        case InvalidCount(n) => Reply(500, Message(InvalidCountMessage(n)))
        case Built(report) => Reply(200, AnalysisReply(report))
  }

  /**
   * The copied pipeline agrees with the serverless handler: for a supported
   * league key (none is empty) and a non-empty id both reply with the same status
   * and, on success, the same report.
   */
  lemma RouteMatchesHandler(exp: DC.PosFn, fixtureId: string, league: Option<string>, fixtures: seq<Fixture>,
                            recent: seq<MatchResult>, standings: seq<Standing>)
    requires fixtureId != "" && QueryLeague(league) in Leagues
    ensures var route := AnalysisRoute(exp, fixtureId, league, fixtures, recent, standings);
      var handled := Handle(exp, Request("GET", Some(fixtureId), league), fixtures, recent, standings);
      && route.status == handled.status
      && (route.body.AnalysisReply? <==> handled.body.Analysed?)
      && (route.body.AnalysisReply? ==> route.body.report == handled.body.report)
  {
    assert LeagueKey(Request("GET", Some(fixtureId), league)) == QueryLeague(league);
  }

  /**
   * The two disagree on an empty league parameter: the handler falls back to
   * the Premier League, while the route looks up the empty key and fails.
   */
  lemma EmptyLeagueDiffers(exp: DC.PosFn, fixtureId: string, fixtures: seq<Fixture>,
                           recent: seq<MatchResult>, standings: seq<Standing>)
    requires fixtureId != ""
    ensures AnalysisRoute(exp, fixtureId, Some(""), fixtures, recent, standings).status == 500
    ensures Handle(exp, Request("GET", Some(fixtureId), Some("")), fixtures, recent, standings).status != 500
         || (FindFixture(fixtures, fixtureId).Some?
             && Analyse(exp, FindFixture(fixtures, fixtureId).value, Leagues["premier-league"], recent, standings).InvalidCount?)
  {
    assert "" !in Leagues;
    assert LeagueKey(Request("GET", Some(fixtureId), Some(""))) == "premier-league";
  }
}
