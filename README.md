# Footy-expert prediction core in Dafny

This project models the prediction core of the footy-expert football
analysis service and proves properties of that model.

- **Dixon-Coles outcome engine.** The Poisson goal model with the
  low-score correction, the attack, defence and home-advantage ratings, and
  the grid tally that turns two goal rates into home, draw and away
  probabilities.
- **Analysis pipeline.** The pipeline of the serverless analysis handler
  turns a league table and recent results into four clamped ratings and a
  league baseline, calls the engine and builds the report. Its copy in the
  Fastify server is modelled as calls to that same pipeline, and a lemma
  relates the two.
- **Fastify `/predict` route.** This legacy route runs the static model on
  fixed goal rates.
- **Data post-processing.** This covers the recent-results collection and
  ordering, the standings row mapping, and the likely-goalscorer tally.
- **Chat fixture matcher.** The front end uses it to pick a fixture from a
  user's message.
- **`football-data` serverless function.** It chooses the league key and
  checks the request method and the league.

## How the model is organised

Each module follows one source file:

| module | file | contents |
|---|---|---|
| `DixonColes` | `dixon_coles.dfy` | the engine |
| `Analysis` | `analysis.dfy` | the serverless analysis handler |
| `Server` | `server.dfy` | the two Fastify routes |
| `Utils` | `utils.dfy` | the data post-processing in `api/utils.cjs` |
| `ChatMatch` | `chat_match.dfy` | `findMatchIdFromText` |
| `FootballData` | `football_data.dfy` | the `football-data` function |

`Text`, `Arrays` and `Wrappers` model the JavaScript built-ins the core
relies on:

- `split`, `join`, `includes`, `trim`, `toLowerCase`, `repeat`;
- array `filter`, `find`, `slice`, and a stable `sort` by an integer key;
- an `Option` type for absent values.

JavaScript numbers are modelled as `real`. `Math.exp` is a parameter
`exp: PosFn`, a function whose values are all positive. Strings are
`seq<char>`.

The loops the source writes as loops are Dafny methods, each proved equal to
a specification function:

- `DixonColes.PredictProbs`, with its nested grid loops split into
  `TallyRow` and `TallyGrid`;
- `DixonColes.CalculateHomeAdvantage`;
- `Utils.CollectRecentResults`;
- `Utils.CountScorers` and `Utils.ExtractLikelyGoalscorers`.

Everything else is a function.

Where the serverless handler and the Fastify route disagree, the model
follows each file's own code:

- `api/analysis.js` answers 400 for an unknown league.
- `api/index.cjs` checks no league at all. Its fixture fetch throws, and
  Fastify answers 500 with the error's message.
- `api/index.cjs` applies the `'premier-league'` default only when the
  parameter is missing. An empty `league` therefore fails there, while the
  serverless handler falls back to the default (`Server.EmptyLeagueDiffers`).

## Model

| member | source | states |
|---|---|---|
| DixonColes.Factorial | services/model/dixon_coles.js:5 | every factorial is at least 1 |
| DixonColes.FactorialStep | services/model/dixon_coles.js:5 | (k+1)! is (k+1) times k! |
| DixonColes.FactorialIsRangeProduct | services/model/dixon_coles.js:5 | the recursive factorial equals the product 2·3·…·n, and is 1 for n ≤ 1 |
| DixonColes.Pow | services/model/dixon_coles.js:3 | `Math.pow` for a whole exponent; its recurrence and signs are the contracts of DixonColes.PowStep and DixonColes.PowSign |
| DixonColes.Poisson | services/model/dixon_coles.js:1-4 | the weight exp(−λ)·λ^k/k!; its sign, its value at 0 and its ratio between neighbours are the contracts of DixonColes.PoissonSign and DixonColes.PoissonStep |
| DixonColes.PowStep | services/model/dixon_coles.js:1-4 | λ^(k+1) = λ·λ^k |
| DixonColes.PowSign | services/model/dixon_coles.js:1-4 | powers of a non-negative base are non-negative, and powers of a positive base are positive |
| DixonColes.PoissonSign | services/model/dixon_coles.js:1-4 | the Poisson weight is non-negative for λ ≥ 0, positive for λ > 0, and equal to exp(−λ) at k = 0 |
| DixonColes.PoissonStep | services/model/dixon_coles.js:1-4 | poisson(λ, k+1) = poisson(λ, k)·λ/(k+1) |
| DixonColes.CorrectionTable | services/model/dixon_coles.js:14-22 | the `corrections` object looked up by its "h-a" key, absent for any other score; its four entries and the or-1 fallback are the contracts of DixonColes.LowScoreFactors and DixonColes.Correction |
| DixonColes.Correction | services/model/dixon_coles.js:8-23 | the factor is never 0; it is 1 outside the four low scores, and 1 everywhere when ρ = 0 |
| DixonColes.LowScoreFactors | services/model/dixon_coles.js:8-23 | the four low-score cells give 1−λh·λa·ρ, 1+λa·ρ, 1+λh·ρ and 1−ρ, each replaced by 1 when it is exactly 0 |
| DixonColes.ZeroFactorFallsBack | services/model/dixon_coles.js:21-22 | with ρ = 1 the (1,1) entry is 0, and the or-1 fallback turns it into 1 |
| DixonColes.AttackRating | services/model/dixon_coles.js:26-50 | the rating is the 0.4/0.35/0.25 blend of the per-match rates (matches floored at 1) or the 0.5 floor, whichever is larger |
| DixonColes.DefenseRating | services/model/dixon_coles.js:53-77 | the same blend over goals conceded, floored at 0.5 |
| DixonColes.DefenseIsAttackOfConceded | services/model/dixon_coles.js:26-77 | the defence rating is the attack rating of the stats with goals conceded in place of goals scored |
| DixonColes.GoallessTeamOnFloor | services/model/dixon_coles.js:37-49 | a team that scored no goals rates exactly 0.5 |
| DixonColes.CalculateHomeAdvantage | services/model/dixon_coles.js:80-115 | the result is 1.35 plus the win-rate step (±0.15) and the goal-difference step (+0.1 or −0.1); it always lies in [1.1, 1.6], so the [1.0, 1.8] clamp never binds |
| DixonColes.RowTallyIsMass | services/model/dixon_coles.js:135-153 | a row of the tally adds to each outcome exactly the cell mass of that outcome |
| DixonColes.GridTallyIsMass | services/model/dixon_coles.js:135-153 | the grid tally credits every cell to exactly one of home win (i>j), draw (i=j) or away win (i<j) |
| DixonColes.GridTotalNonZero | services/model/dixon_coles.js:135-161 | for non-negative rates and positive exp values the grid total is never 0, and is positive when maxGoals ≥ 1, whatever ρ is |
| DixonColes.WithDefaults | services/model/dixon_coles.js:118-130 | with the defaults the expected home goals are 1.89 × home attack × away defence (home advantage 1.35 times league average 1.4) and the expected away goals 1.4 × away attack × home defence; ρ is 0.1 and the grid runs to 6 goals |
| DixonColes.ExpNeg | services/model/dixon_coles.js:1-4 | exp(−x) is positive |
| DixonColes.LambdaHome | services/model/dixon_coles.js:129 | `lambdaHome`; its positivity is the contract of DixonColes.RatedInputsPositive, its value under the defaults that of DixonColes.WithDefaults |
| DixonColes.LambdaAway | services/model/dixon_coles.js:130 | `lambdaAway`, with no venue factor; positivity and default value as for LambdaHome |
| DixonColes.Mass | services/model/dixon_coles.js:133-153 | the three accumulated masses of the grid; each cell is credited to one outcome (DixonColes.GridTallyIsMass), the total is non-zero (DixonColes.MassNonZero), and the loops compute it (DixonColes.TallyGrid) |
| DixonColes.RatesOf | services/model/dixon_coles.js:129-133 | both exp(−λ) values the grid uses are positive |
| DixonColes.MassNonZero | services/model/dixon_coles.js:135-161 | for non-negative λ the normalising total is non-zero, and positive for maxGoals ≥ 1 |
| DixonColes.RatedInputsPositive | services/model/dixon_coles.js:129-130 | ratings of at least 0.5 with a positive home advantage and league average give positive λHome and λAway |
| DixonColes.PredictSumsToOne | services/model/dixon_coles.js:156-161 | after normalisation p_home + p_draw + p_away = 1 |
| DixonColes.PredictInUnitRange | services/model/dixon_coles.js:135-161 | for non-negative λHome and λAway and 0 ≤ ρ ≤ 1/2 (the default is 0.1) the total is non-zero and p_home, p_draw and p_away each lie in [0, 1] |
| DixonColes.GridSharesInUnitRange | services/model/dixon_coles.js:135-161 | for 0 ≤ ρ ≤ 1/2 and a grid of at least one cell, the three tallied masses over their total each lie in [0, 1]; a grid of the 0-0 cell alone gives 0, 1 and 0 |
| DixonColes.OutcomeMassSigns | services/model/dixon_coles.js:135-153 | with only the 0-0 cell the home and away masses are 0; with the grid reaching 1-1 all three masses are non-negative |
| DixonColes.DrawMassNonNegative | services/model/dixon_coles.js:135-153 | the draw mass of a grid reaching 1-1 is non-negative for 0 ≤ ρ ≤ 1/2, though the 0-0 cell alone may be negative |
| DixonColes.DrawlessMassNonNegative | services/model/dixon_coles.js:135-153 | the home-win and away-win masses are non-negative for 0 ≤ ρ ≤ 1 |
| DixonColes.DiagonalLowPair | services/model/dixon_coles.js:14-17 | the corrected 0-0 and 1-1 cells together are non-negative for 0 ≤ ρ ≤ 1/2 |
| DixonColes.CellNonNegative | services/model/dixon_coles.js:8-23 | every corrected cell other than 0-0 is non-negative for 0 ≤ ρ ≤ 1 |
| DixonColes.SharesInUnitRange | services/model/dixon_coles.js:156-161 | each normalised share of a positive total of non-negative masses lies in [0, 1]; the step DixonColes.PredictInUnitRange uses |
| DixonColes.Normalise | services/model/dixon_coles.js:155-172 | the returned record: each mass over the total, λ values as expected goals, the parameters echoed; that the shares sum to 1 is the contract of DixonColes.PredictSumsToOne, that they lie in [0, 1] for 0 ≤ ρ ≤ 1/2 that of DixonColes.PredictInUnitRange |
| DixonColes.Predict | services/model/dixon_coles.js:118-173 | the specification of `predictProbs`; DixonColes.PredictProbs is proved to return it, and DixonColes.PredictIsNormalisedMass and DixonColes.PredictSumsToOne state its meaning |
| DixonColes.PredictIsNormalisedMass | services/model/dixon_coles.js:135-161 | each probability is its outcome's grid mass divided by the non-zero total mass of all (maxGoals+1)² cells |
| DixonColes.TallyRow | services/model/dixon_coles.js:137-152 | the inner loop's three accumulators end as the row tally of the specification |
| DixonColes.TallyGrid | services/model/dixon_coles.js:135-153 | the nested loops' accumulators end as the grid tally over (maxGoals+1)² cells |
| DixonColes.PredictProbs | services/model/dixon_coles.js:118-173 | the method returns the normalised prediction of the specification |
| DixonColes.StaticRoundTrip | services/model/dixon_coles.js:176-186 | attack λ/1.4, defence 1, home advantage 1, league average 1.4 give back exactly the λ values passed in |
| DixonColes.PredictProbsStatic | services/model/dixon_coles.js:176-186 | the static model reports the given λ values as expected goals, a correlation factor of 0.1 and a home advantage of 1.0 |
| Analysis.FindTeam | api/analysis.js:44-58 | None exactly when no row matches; otherwise the first row where, lowercased, the row's name contains the fixture name's first word, the fixture name contains the row name's first word, or the two names are equal |
| Analysis.TeamMatches | api/analysis.js:45-49 | the three-way test of the `find` callback; Analysis.FindTeam returns the first row passing it, and Analysis.SharedFirstWordMatches and Analysis.BlankFirstWordTakesFirstRow show two of its branches |
| Analysis.SharedFirstWordMatches | api/analysis.js:47 | a row whose name contains the fixture name's first word matches |
| Analysis.BlankFirstWordTakesFirstRow | api/analysis.js:44-50 | a fixture name that begins with a space has an empty first word, so it matches the first row of any table |
| Analysis.TotalGoalsFor | api/analysis.js:64 | the `reduce` over goals for; bounded by Analysis.TotalGoalsBounds |
| Analysis.TotalGoalsAgainst | api/analysis.js:65 | the `reduce` over goals against; bounded by Analysis.TotalGoalsBounds |
| Analysis.LeagueAvgGoalsFor | api/analysis.js:64 | the league average of goals for; its relation to the total is Analysis.Average, its bounds Analysis.LeagueAveragesBounded |
| Analysis.LeagueAvgGoalsAgainst | api/analysis.js:65 | the league average of goals against; as for LeagueAvgGoalsFor |
| Analysis.Average | api/analysis.js:64-65 | the league average times the number of rows is the goal total, and the average is the total itself for an empty table because of `max(length, 1)` |
| Analysis.TotalGoalsBounds | api/analysis.js:64-65 | with every row's goals in [0, k] the totals lie in [0, n·k] |
| Analysis.LeagueAveragesBounded | api/analysis.js:64-65 | with every row's goals in [0, k] both league averages of a non-empty table lie in [0, k]; an empty table averages 0 |
| Analysis.DivisionBound | api/analysis.js:64-65 | a total in [0, n·k] averaged over n rows lies in [0, k] |
| Analysis.RecentMatches | api/analysis.js:70-76 | at most five results, each from the list and each involving the team |
| Analysis.RecentMatchesSlots | api/analysis.js:70-76 | they are the first matches involving the team in list order: a match is kept at the slot equal to the number of involving matches before it, while fewer than five came before |
| Analysis.GoalsFor | api/analysis.js:78-92 | the goals a match gives the team, read from its own side; the contract of Analysis.ScoredFromOwnSide and, with GoalsAgainst, Analysis.ScoredPlusConceded |
| Analysis.GoalsAgainst | api/analysis.js:78-92 | the goals the team conceded in a match; see Analysis.ScoredPlusConceded |
| Analysis.ScoredPlusConceded | api/analysis.js:78-92 | goals scored plus goals conceded equal the total goals of the same matches |
| Analysis.ScoredFromOwnSide | api/analysis.js:78-92 | for matches the team played against another team, its goals are counted from its own side, home or away |
| Analysis.PerGame | api/analysis.js:95-98 | the per-game rate times the match count is the total, and it is 1.0 with no matches |
| Analysis.FormAttack | api/analysis.js:109-110 | attack × max(avgFor, 0.1) = goals per game, and it is non-negative for non-negative goals |
| Analysis.FormDefense | api/analysis.js:113-114 | defence × max(cpg, 0.1) = max(avgAgainst, 0.1), and it is positive |
| Analysis.Clamp | api/analysis.js:124-127 | the result lies in [0.6, 2.5], keeps values already inside, and sends lower values to 0.6 and higher ones to 2.5 |
| Analysis.SafeLeagueAvg | api/analysis.js:128 | the baseline is at least 1.0 and keeps league averages of 1.0 or more |
| Analysis.SafeRatings | api/analysis.js:109-128 | all four ratings lie in [0.6, 2.5] and the baseline is at least 1.0 |
| Analysis.NoRecentResults | api/analysis.js:95-114 | teams with no recent matches get equal ratings, fixed by the league averages alone |
| Analysis.ModelInputs | api/analysis.js:138-149 | the goal rates the engine derives from its arguments are exactly the expected goals the handler computes on its own from the safe ratings; ρ 0.1 and maxGoals 6 come from the defaults |
| Analysis.Forecast | api/analysis.js:138-149 | for safe ratings the model's probabilities sum to 1 and each lies in [0, 1], and its expected goals equal the positive values the handler computes itself |
| Analysis.Segment | api/analysis.js:185-187 | a `repeat` segment fails exactly when its condition holds and its count is negative; otherwise it is that many copies of the letter, or empty |
| Analysis.Letters | api/analysis.js:186 | the three `repeat` segments of the template for a found team; their throws and letter counts are the contracts of Analysis.LastFiveShape and Analysis.LastFiveCounts |
| Analysis.LastFive | api/analysis.js:185-187 | the fallback string for a team not in the table, else the padded and cut letters; specified by Analysis.LastFiveShape, Analysis.LastFiveCounts and Analysis.PaddedLetters |
| Analysis.LastFiveShape | api/analysis.js:185-187 | the form string throws exactly for draws after more than five wins, or losses after more than five wins and draws, with the negative count named; otherwise it is five W/D/L letters |
| Analysis.LastFiveCounts | api/analysis.js:185-187 | for a record of at most five games the string shows every draw and every loss, and wins fill the rest |
| Analysis.PaddedLetters | api/analysis.js:185-187 | padding to five letters adds only wins |
| Analysis.ValueSpot | api/analysis.js:233-234 | the home label exactly when p_home > 0.45; the away label exactly when p_home ≤ 0.45 and p_away > 0.4; the draw label exactly otherwise |
| Analysis.DrawLabelLeavesDraws | api/analysis.js:233-234 | when the probabilities sum to 1, the draw label means p_draw ≥ 0.15 |
| Analysis.LeagueKey | api/analysis.js:20 | the `league` parameter, or 'premier-league' when it is missing or empty; the contrast with the route's destructuring default is Server.EmptyLeagueDiffers |
| Analysis.FindFixture | api/analysis.js:31-35 | it returns the first fixture of the list with the requested id, no earlier one having it, and None exactly when no fixture has that id |
| Analysis.Handle | api/analysis.js:10-242 | 200 with no body exactly for OPTIONS; 405 exactly for other non-GET methods; 400 exactly for a missing id or a league outside the five configured keys; 404 exactly for an unknown fixture; 500, with an error, exactly when a form string of the found fixture throws; a report exactly on a GET answered 200 |
| Analysis.FormStrings | api/analysis.js:185-196 | both form strings, or the count of the first `repeat` that throws; specified by Analysis.FormStringsShape |
| Analysis.Throws | api/analysis.js:185-196 | the records for which a `repeat` count is negative; Analysis.LastFiveShape and Analysis.FormStringsShape state that exactly these throw |
| Analysis.Analyse | api/analysis.js:37-239 | the pipeline from the found fixture to the report; Analysis.AnalyseFails says when it fails and Analysis.AnalyseReport what a built report holds |
| Analysis.FormStringsShape | api/analysis.js:185-196 | the form strings fail exactly when a team found in the table hits a negative count, and are five letters each otherwise |
| Analysis.AnalyseFails | api/analysis.js:240-242 | the analysis fails, and the handler answers 500, exactly when one of the form strings throws |
| Analysis.AnalyseReport | api/analysis.js:138-158 | when both form strings build, the analysis is built and carries the fixture's data, safe ratings from both teams' form, the model's probabilities (which sum to 1 and each lie in [0, 1]), its expected goals, the label chosen from them, and two five-letter form strings |
| Analysis.HandleReport | api/analysis.js:30-239 | a GET with the id of a listed fixture in a supported league, whose form strings build, is answered 200 with that fixture's analysis |
| Server.PredictionOf | api/index.cjs:210 | the static prediction reports the two rates as expected goals, and for non-negative rates its probabilities sum to 1 and each lie in [0, 1] |
| Server.PredictRoute | api/index.cjs:202-212 | 400 exactly without an id; 500 exactly for a league outside the five configured keys (a missing parameter defaults to the Premier League); 404 exactly for an unknown fixture; otherwise 200 with the fixture of that id and the fixed rates 1.5 and 1.2 |
| Server.AnalysisRoute | api/index.cjs:215-426 | 500 exactly for a league outside the five configured keys or a throwing form string; 404 exactly for an unknown fixture; 200 exactly with a report |
| Server.RouteMatchesHandler | api/index.cjs:230-335 | for a supported league and a non-empty id, the route and the serverless handler give the same status and the same report |
| Server.EmptyLeagueDiffers | api/index.cjs:217 | an empty league parameter fails in the route but falls back to the Premier League in the handler |
| Utils.StandingOf | api/utils.cjs:195-206 | a row maps to its rank, name and season; unparseable goal counts read as 0, and the goal difference is goals for minus goals against |
| Utils.Standings | api/utils.cjs:193-207 | with no table the standings are empty; otherwise they are ordered by rank and are a permutation (as a multiset) of the rows mapped one by one, so each row gives exactly one entry |
| Utils.StandingsOfPermutation | api/utils.cjs:194-207 | mapping two tables that hold the same rows, in any order, gives the same standings up to order: sorting before the mapping loses and duplicates nothing |
| Utils.CurrentStandings | api/utils.cjs:183-191 | the current season's table is used when it has rows, and the previous season's otherwise |
| Utils.ResultOf | api/utils.cjs:71-83 | a result keeps the event's id, date and teams, its parsed scores (0 when unparseable), its venue or 'TBD', and the league, country and season |
| Utils.SeasonResultsShape | api/utils.cjs:64-83 | a season's results are newest first, one per completed event: each is a completed event's result, every completed event's result is among them, and they number as many as the completed events |
| Utils.Completed | api/utils.cjs:66-69 | the filter for completed matches; Utils.SeasonResultsShape and Utils.CollectedFromSeasons keep only such events |
| Utils.SeasonResults | api/utils.cjs:64-83 | one season's completed events, newest first, mapped; specified by Utils.SeasonResultsShape |
| Utils.CollectedStops | api/utils.cjs:58-59 | once 100 results are collected, no later season is fetched |
| Utils.CollectedFromSeasons | api/utils.cjs:58-87 | every collected result is a completed event of a searched season |
| Utils.Collected | api/utils.cjs:55-88 | what the seasons loop has collected, the early exit included; Utils.CollectRecentResults computes it, and Utils.CollectedStep, Utils.CollectedStops and Utils.CollectedFromSeasons state its meaning |
| Utils.Cap | api/utils.cjs:92 | `Math.max(minMatches * 4, 50)`; the bound of Utils.RecentResultsShape |
| Utils.NewestFirst | api/utils.cjs:91-92 | the final sort and slice; specified by Utils.NewestFirstShape |
| Utils.RecentResults | api/utils.cjs:48-100 | the specification of `fetchRecentResults` after its fetches; Utils.CollectRecentResults is proved to return it and Utils.RecentResultsShape states its properties |
| Utils.RecentResultsShape | api/utils.cjs:48-100 | the cap is at least 50 and at least 4·minMatches; the results number min(cap, collected), are newest first, each is a completed event of a season, and a completed event of a searched season is either reported or no newer than any reported result |
| Utils.RecentResultsFromSeasons | api/utils.cjs:58-92 | every reported result is a completed event of one of the two seasons |
| Utils.RecentResultsKeepNewest | api/utils.cjs:58-92 | a completed event of a season the loop searched is either reported or no newer than every reported result |
| Utils.Searched | api/utils.cjs:58-59 | a season the loop reached with fewer than 100 results collected |
| Utils.CollectedGrows | api/utils.cjs:58-87 | a later round keeps everything an earlier round collected |
| Utils.CollectedKeepsCompleted | api/utils.cjs:58-87 | every completed event of a searched season is collected |
| Utils.NewestFirstShape | api/utils.cjs:91-92 | sorting newest first and cutting keeps min(max(cap, 0), length of all) results, in date order, only collected ones, and none left out is newer than one kept |
| Utils.CollectedStep | api/utils.cjs:58-87 | one round of the loop appends the season's results when its event list is non-empty, and nothing otherwise |
| Utils.CurrentSeasonSuffices | api/utils.cjs:59 | when the current season alone gives 100 results, the previous one is never searched |
| Utils.CollectRecentResults | api/utils.cjs:48-100 | the loop returns the specified recent results |
| Utils.Occurrences | api/utils.cjs:148-166 | a name's count is positive exactly when it is among the names |
| Utils.DistinctMembers | api/utils.cjs:168 | the dictionary keys are exactly the counted names, without repetition |
| Utils.FeedTallied | api/utils.cjs:155 | adding names to the dictionary keeps each key's value equal to its number of occurrences so far, with keys in first-insertion order |
| Utils.FedEntries | api/utils.cjs:168-170 | the dictionary's entries are each distinct name with its number of occurrences |
| Utils.CountScorers | api/utils.cjs:152-156 | the per-list loop adds each piece's name to the dictionary, as the specification feeds it |
| Utils.ExtractLikelyGoalscorers | api/utils.cjs:146-172 | the method returns the specified likely goalscorers |
| Utils.EntriesCount | api/utils.cjs:168-170 | each entry counts its name's occurrences, names are unique, and every counted name has an entry |
| Utils.TopTenOrdered | api/utils.cjs:168-171 | the top ten are ordered by goals, non-increasing |
| Utils.TopTenDistinct | api/utils.cjs:168-171 | distinct entries stay distinct |
| Utils.TopTenBest | api/utils.cjs:168-171 | an entry left out has no more goals than any entry kept |
| Utils.LikelyGoalscorersShape | api/utils.cjs:146-172 | at most ten entries; goals non-increasing; names distinct; each count is the name's number of occurrences and at least 1; an omitted name scores no more than any listed one |
| Utils.PieceNamesShape | api/utils.cjs:152-154 | each counted name is non-empty and is the trimmed text before the first '(' of one of the pieces |
| Utils.QuietMatchAddsNothing | api/utils.cjs:151 | a match with empty or missing scorer strings changes neither the names nor the result |
| Utils.NameOf | api/utils.cjs:153 | `scorer.split('(')[0].trim()`; specified by Utils.PieceNamesShape |
| Utils.PieceNames | api/utils.cjs:152-155 | the non-empty names of one scorer string, in order; specified by Utils.PieceNamesShape |
| Utils.Entries | api/utils.cjs:168 | `Object.entries(scorerMap)`, built independently of the loop; specified by Utils.EntriesCount and tied to the loop by Utils.FedEntries |
| Utils.TopTen | api/utils.cjs:168-171 | sort by goals and keep ten; specified by Utils.TopTenOrdered, Utils.TopTenDistinct and Utils.TopTenBest |
| Utils.LikelyGoalscorers | api/utils.cjs:146-172 | the specification of `extractLikelyGoalscorers`; Utils.ExtractLikelyGoalscorers is proved to return it and Utils.LikelyGoalscorersShape states its properties |
| Utils.OccurrencesConcat | api/utils.cjs:148-166 | counts over home and away lists add up |
| FootballData.KeyRun | netlify/functions/football-data.js:5-8 | the `[\w-]+` run is a slice of the path, made only of key characters, and stops at the first other character |
| FootballData.GroupAt | netlify/functions/football-data.js:5 | the capture group at one position of the pattern; specified by FootballData.GroupShape |
| FootballData.MatchFrom | netlify/functions/football-data.js:5 | the leftmost match of the pattern; specified by FootballData.MatchFromNone, FootballData.MatchFromLeftmost and FootballData.MatchFromFound |
| FootballData.PathKey | netlify/functions/football-data.js:5-8 | the path's captured key, if any; specified by FootballData.PathKeyShape and FootballData.GetLeagueKey |
| FootballData.GetLeagueKey | netlify/functions/football-data.js:3-14 | the path's captured key when the pattern matches; else a non-empty `league` query; else 'premier-league' |
| FootballData.MatchFromNone | netlify/functions/football-data.js:5-8 | the regex finds nothing exactly when it matches at no position |
| FootballData.MatchFromLeftmost | netlify/functions/football-data.js:5-8 | the group returned is the one at the leftmost matching position |
| FootballData.MatchFromFound | netlify/functions/football-data.js:5-8 | a found key comes from a matching position with no match before it |
| FootballData.GroupShape | netlify/functions/football-data.js:5-8 | the group is non-empty and made of key characters; it sits right after the marker or after the marker and '/', and it is maximal |
| FootballData.PathKeyShape | netlify/functions/football-data.js:5-8 | a key taken from the path is non-empty, made of word characters and '-', and follows the marker |
| FootballData.LaLigaPath | netlify/functions/football-data.js:5-8 | '/api/football-data/la-liga' selects 'la-liga' |
| FootballData.BareMarkerFallsBack | netlify/functions/football-data.js:5-13 | '/football-data/' captures nothing, so the query or the default decides |
| FootballData.Handler | netlify/functions/football-data.js:23-69 | 200 with an empty body exactly for OPTIONS; 405 exactly for other non-GET methods; 400 with the league message exactly for a key outside the five configured ones; otherwise 200 with the league's name and key, the first 8 results, the first 10 fixtures, the table, and the likely scorers over all results |
| FootballData.HandlerScorers | netlify/functions/football-data.js:54-63 | the reply lists at most ten scorers, by goals, each counted over all the fetched results |
| ChatMatch.ClubWordAt | frontend/src/App.jsx:96-98 | the alternative of the club-word pattern that occurs at the position, tried in pattern order, or None when none occurs there |
| ChatMatch.StripClubWords | frontend/src/App.jsx:96-98 | removing club words never lengthens a name |
| ChatMatch.NoClubWordUnchanged | frontend/src/App.jsx:96-98 | a name containing no club word is unchanged |
| ChatMatch.ClubWordDeleted | frontend/src/App.jsx:96-98 | a leading club word is deleted |
| ChatMatch.Variations | frontend/src/App.jsx:93-100 | the six variations, full names, first words and club-word-stripped names; the test over them is the contract of ChatMatch.AsWrittenOneVariation and ChatMatch.HomeTeamAlone |
| ChatMatch.TeamsFound | frontend/src/App.jsx:103-111 | the team test, as written and as corrected; specified by ChatMatch.AsWrittenOneVariation and ChatMatch.BothTeamsNamed |
| ChatMatch.Names | frontend/src/App.jsx:81-113 | whether an entry qualifies, by its label or its teams; specified by ChatMatch.LabelInText, ChatMatch.SinglePartLabel and ChatMatch.TwoPartsHaveSeparator |
| ChatMatch.AnyUsableIff | frontend/src/App.jsx:103-108 | `some` holds exactly when one variation is longer than 2 characters and occurs in the text |
| ChatMatch.Search | frontend/src/App.jsx:77-116 | a returned id belongs to an entry of the list |
| ChatMatch.SearchNone | frontend/src/App.jsx:115 | null exactly when no entry qualifies |
| ChatMatch.SearchFirst | frontend/src/App.jsx:79-114 | the id of the first qualifying entry in list order is returned |
| ChatMatch.SearchFound | frontend/src/App.jsx:79-114 | a returned id is that of a qualifying entry with none before it |
| ChatMatch.FindMatchIdFromText | frontend/src/App.jsx:77-116 | `findMatchIdFromText` as written; the search it runs is specified by ChatMatch.Search, ChatMatch.SearchNone, ChatMatch.SearchFirst and ChatMatch.SearchFound, and its flaw is ChatMatch.AwayTeamNotNeeded |
| ChatMatch.LabelInText | frontend/src/App.jsx:80-84 | an entry whose lowercased label occurs in the lowercased text is chosen unless an earlier entry qualifies |
| ChatMatch.SinglePartLabel | frontend/src/App.jsx:87-88 | a label without ' vs ' qualifies only through the label test |
| ChatMatch.TwoPartsHaveSeparator | frontend/src/App.jsx:87-88 | a label that splits into two parts contains ' vs ' |
| ChatMatch.AsWrittenOneVariation | frontend/src/App.jsx:103-111 | as written, the team test holds exactly when any one of the six variations is usable |
| ChatMatch.HomeTeamAlone | frontend/src/App.jsx:93-111 | a home name longer than 2 characters that occurs in the text is enough for the entry to qualify |
| ChatMatch.AwayTeamNotNeeded | frontend/src/App.jsx:103-111 | the text "abc" selects "Abc vs Def" although "def" is nowhere in it, and the corrected matcher does not select it |
| ChatMatch.BothTeamsNamed | frontend/src/App.jsx:103-111 | under the corrected rule a team-matched entry has a usable variation of each of its two teams |
| ChatMatch.BothTeamsNarrows | frontend/src/App.jsx:103-111 | every entry the corrected rule selects is also selected as written |
| Text.IndexFromFirst | frontend/src/App.jsx:82 | the search behind `includes` returns an occurrence with none before it, or −1 when there is none from the start position on |
| Text.Contains | frontend/src/App.jsx:82 | `includes`; specified by Text.ContainsIff |
| Text.Lower | frontend/src/App.jsx:78 | `toLowerCase` on ASCII letters, one character for one |
| Text.ContainsIff | frontend/src/App.jsx:82 | `includes` holds exactly when the needle occurs somewhere |
| Text.Split | frontend/src/App.jsx:87 | a split gives at least one part |
| Text.JoinSplit | api/utils.cjs:152 | joining the parts of a split with the separator gives back the string |
| Text.SplitPiecesFree | api/utils.cjs:152 | no part of a split contains the separator |
| Text.SplitFirstIsPrefix | api/utils.cjs:153 | the first part of a split is a prefix of the string |
| Text.Trim | api/utils.cjs:153 | `trim`; specified by Text.TrimShape |
| Text.TrimShape | api/utils.cjs:153 | the trimmed string is a slice of the original with only white space before and after it, it neither starts nor ends with white space, and is empty exactly when the string is all white space |
| Text.Repeat | api/analysis.js:186 | `repeat` fails exactly on a negative count, and otherwise gives that many copies |
| Text.FitTo | api/analysis.js:186 | padding or cutting to n characters gives exactly n, keeping the prefix and filling with the pad character |
| Arrays.SortBy | api/utils.cjs:91 | the sort is ordered by the key and is a permutation of its input |
| Arrays.Take | api/utils.cjs:92 | `slice(0, n)` gives the first min(n, length) elements, or none for n ≤ 0 |
| Arrays.Filter | api/utils.cjs:66-69 | the kept elements are exactly the members that satisfy the predicate |
| Arrays.FilterConcat | api/analysis.js:70-76 | filtering distributes over concatenation |
| Arrays.Find | api/analysis.js:31 | `find` returns the first element that satisfies the predicate, and None exactly when none does |

## Left out

- `Math.exp` is the parameter `exp`, known only to be positive. Its value
  and floating-point rounding, NaN and `toFixed` strings are not modelled.
  All arithmetic is on `real`.
- DixonColes.PredictProbs: the source has no guard for a zero normalising
  total, so the method and `Predict` require it to be non-zero.
  `GridTotalNonZero` shows the requirement always holds for non-negative
  rates.
- DixonColes.TallyGrid: the source computes exp(−λ) again for every cell.
  The model computes it once, since the value is the same. The nested
  loops are split into `TallyRow` and `TallyGrid`.
- I/O is not modelled: the TheSportsDB, OpenRouter and api-sports fetches,
  the `Promise.all` fan-out, logging, Fastify route registration and CORS
  headers. The handlers take the fetched fixtures, results and tables as
  plain inputs.
- A fetch that fails is not modelled. This includes the football-data
  `catch` that answers 500, and the `[]` the fetchers return on error.
- Time stamps are not modelled: `generated_at`, `current_date` and
  `last_updated`.
- Server.PredictRoute: the reply carries the static model's arguments, not
  the spread prediction fields. `Server.PredictionOf` computes that
  prediction and states its properties. Fastify's 500 wrapper is reduced
  to the error message.
- Dates are integers. `new Date` parsing and comparison are not modelled.
- `parseInt` is modelled as an already parsed optional integer, and
  `intRank` as an integer.
- The fixture id comparison `==` is string equality.
- `toLowerCase` folds only ASCII letters.
- `Object.entries` lists keys in first-insertion order, which holds for the
  non-numeric names the tally receives. An integer-like name would be
  listed first in JavaScript; the model does not capture that.
- `fetchRecentResultsWithGoalscorers` is modelled only through its output
  shape, `FootballData.ScoredResult`. Its collection loop is the one in
  `Utils.CollectRecentResults` with two more fields.
- Constant texts of the analysis report are not modelled: head-to-head,
  team news, tactics, the recommended markets, `clean_sheets`, `points`
  and the venue percentages.
- The matcher's entry field `label` is named `title` in the model, because
  `label` is a reserved word in Dafny.
- The regular expressions `football-data\/?([\w-]+)` and the club-word
  pattern are written out as explicit search functions.
- FootballData.Handler: the league check is membership among the five
  configured keys. The source's `!LEAGUES[league]` reads a plain object, so
  names inherited from `Object.prototype` (`constructor`, `toString`,
  `valueOf`, `hasOwnProperty`, `__proto__` and the rest) also pass it; the
  source then fetches with an undefined league id and answers 200 with
  empty data, where the model answers 400.
- Analysis.Handle: for the same inherited names the source passes the
  league check, finds no fixture and answers 404; the model answers 400.
- Server.PredictRoute: for the inherited names `fetchLiveFixtures` does not
  throw, so the source answers 404; the model answers 500.
- Server.AnalysisRoute: as for `Server.PredictRoute`, the source answers
  404 for the inherited names and the model 500.
- DixonColes.AttackRating: the destructuring defaults of
  `calculateAttackRating` (0 goals, 1 match) are not modelled; `TeamStats`
  makes every field mandatory, so a call that omits a field is not covered.
- DixonColes.DefenseRating: the destructuring defaults of
  `calculateDefenseRating` are not modelled, as for `AttackRating`.
- DixonColes.CalculateHomeAdvantage: the destructuring defaults of
  `calculateHomeAdvantage` (0 wins, draws, losses and goals, 1 match) are
  not modelled; `VenueStats` makes every field mandatory.
- Utils.ResultOf: the `matchday` field (`intRound`, or 'Unknown') of a
  result is not modelled; nothing in the modelled core reads it.
- Utils.ExtractLikelyGoalscorers: `scorerMap` is a plain object, so a
  scorer whose name is an inherited `Object.prototype` member
  (`constructor`, `toString`) starts from that inherited value rather than
  from 0, and `__proto__` is not stored as a key at all. The model, and
  `Utils.LikelyGoalscorers`, count every name from 0.
- ChatMatch.AnyUsableIff: `variation.length` counts UTF-16 code units; the
  model counts Unicode characters, so the two differ for names with
  characters outside the Basic Multilingual Plane.

## Findings

| source | as written | input that shows it | evidently intended | confidence | as-written member | corrected member |
|---|---|---|---|---|---|---|
| frontend/src/App.jsx:103-111 | `homeFound` and `awayFound` test the same six variations with the same condition, so an entry is chosen when any single variation of either team occurs in the text | text "abc" and the single entry {id "1", label "Abc vs Def"}: "1" is returned although the away team is not mentioned | each team found among its own variations and both required (ChatMatch.BothTeamsNamed) | not executed | ChatMatch.AwayTeamNotNeeded | ChatMatch.FindMatchIdBothTeams |
