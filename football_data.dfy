/**
 * The serverless `football-data` function: it picks a league key from the
 * request path or query, checks the method and the key, and returns the
 * league's recent results, table, upcoming fixtures and likeliest scorers.
 */
module FootballData {
  import opened Wrappers
  import opened Text
  import opened Arrays
  import opened Utils

  /** The literal part of the pattern `football-data\/?([\w-]+)`. */
  const Marker: string := "football-data"

  /** `[\w-]`: an ASCII letter, a digit, `_` or `-`. */
  predicate IsKeyChar(c: char) {
    ('a' <= c <= 'z') || ('A' <= c <= 'Z') || ('0' <= c <= '9') || c == '_' || c == '-'
  }

  /** The greedy `[\w-]+` run starting at `i`: the longest stretch of key characters there. */
  function KeyRun(s: string, i: nat): (r: string)
    requires i <= |s|
    ensures i + |r| <= |s| && r == s[i..i + |r|]
    ensures forall k :: 0 <= k < |r| ==> IsKeyChar(r[k])
    ensures i + |r| == |s| || !IsKeyChar(s[i + |r|])
    decreases |s| - i
  {
    if i < |s| && IsKeyChar(s[i]) then [s[i]] + KeyRun(s, i + 1) else ""
  }

  /**
   * The capture group when the pattern is tried at `p`, where the marker
   * occurs: the optional `/` is taken when a key character follows it, and
   * otherwise the run must start right after the marker.
   */
  function GroupAt(path: string, p: nat): Option<string>
    requires p + |Marker| <= |path|
  {
    var q := p + |Marker|;
    if q + 1 < |path| && path[q] == '/' && IsKeyChar(path[q + 1]) then Some(KeyRun(path, q + 1))
    else if q < |path| && IsKeyChar(path[q]) then Some(KeyRun(path, q))
    else None
  }

  /** The pattern matches at `p`. */
  predicate MatchesAt(path: string, p: nat) {
    OccursAt(path, Marker, p) && GroupAt(path, p).Some?
  }

  /** `String.prototype.match` tried from position `i` on: the leftmost match's group. */
  function MatchFrom(path: string, i: nat): Option<string>
    requires i <= |path|
    decreases |path| - i
  {
    if MatchesAt(path, i) then GroupAt(path, i)
    else if i == |path| then None
    else MatchFrom(path, i + 1)
  }

  /** `path.match(/football-data\/?([\w-]+)/)[1]`, or `None` when there is no path or no match. */
  function PathKey(path: Option<string>): Option<string> {
    if path.Some? then MatchFrom(path.value, 0) else None
  }

  /** `getLeagueKey(event)`: the key in the path, else the `league` query parameter, else the Premier League. */
  function GetLeagueKey(path: Option<string>, league: Option<string>): (key: string)
    ensures PathKey(path).Some? ==> key == PathKey(path).value
    ensures PathKey(path).None? && Truthy(league) ==> key == league.value
    ensures PathKey(path).None? && !Truthy(league) ==> key == "premier-league"
  {
    match PathKey(path)
    case Some(k) => k
    case None => if Truthy(league) then league.value else "premier-league"
  }

  /** The search from `i` finds nothing exactly when the pattern matches at no position from `i` on. */
  lemma {:induction false} MatchFromNone(path: string, i: nat)
    requires i <= |path|
    ensures MatchFrom(path, i).None? <==> forall p :: i <= p <= |path| ==> !MatchesAt(path, p)
    decreases |path| - i
  {
    if !MatchesAt(path, i) && i < |path| {
      MatchFromNone(path, i + 1);
    }
  }

  /** When `p` is the leftmost position from `i` on where the pattern matches, its group is returned. */
  lemma {:induction false} MatchFromLeftmost(path: string, i: nat, p: nat)
    requires i <= p <= |path| && MatchesAt(path, p)
    requires forall q :: i <= q < p ==> !MatchesAt(path, q)
    ensures MatchFrom(path, i) == GroupAt(path, p)
    decreases p - i
  {
    if i < p {
      MatchFromLeftmost(path, i + 1, p);
    }
  }

  /** A found group is taken at some matching position from `i` on, with no match before it. */
  lemma {:induction false} MatchFromFound(path: string, i: nat)
    requires i <= |path| && MatchFrom(path, i).Some?
    ensures exists p :: (i <= p <= |path| && MatchesAt(path, p) && MatchFrom(path, i) == GroupAt(path, p)
      && forall q :: i <= q < p ==> !MatchesAt(path, q))
    decreases |path| - i
  {
    if MatchesAt(path, i) {
      assert MatchFrom(path, i) == GroupAt(path, i);
    } else {
      MatchFromFound(path, i + 1);
      var p :| i + 1 <= p <= |path| && MatchesAt(path, p) && MatchFrom(path, i + 1) == GroupAt(path, p)
        && forall q :: i + 1 <= q < p ==> !MatchesAt(path, q);
      assert MatchFrom(path, i) == GroupAt(path, p);
    }
  }

  /**
   * The group at a matching position is non-empty, made only of key
   * characters, sits right after the marker or after the marker and a `/`,
   * and stops at the first character that is not a key character.
   */
  lemma GroupShape(path: string, p: nat)
    requires MatchesAt(path, p)
    ensures var key := GroupAt(path, p).value; var q := p + |Marker|;
      && |key| > 0 && (forall k :: 0 <= k < |key| ==> IsKeyChar(key[k]))
      && ((OccursAt(path, key, q) && (q + |key| == |path| || !IsKeyChar(path[q + |key|])))
          || (path[q] == '/' && OccursAt(path, key, q + 1) && (q + 1 + |key| == |path| || !IsKeyChar(path[q + 1 + |key|]))))
  {
    var q := p + |Marker|;
    if q + 1 < |path| && path[q] == '/' && IsKeyChar(path[q + 1]) {
      assert |KeyRun(path, q + 1)| > 0;
    } else {
      assert |KeyRun(path, q)| > 0;
    }
  }

  /** A key taken from the path is non-empty and made of key characters only, and it follows the marker in the path. */
  lemma PathKeyShape(path: string)
    requires PathKey(Some(path)).Some?
    ensures var key := PathKey(Some(path)).value;
      && |key| > 0 && (forall k :: 0 <= k < |key| ==> IsKeyChar(key[k]))
      && exists p :: (OccursAt(path, Marker, p)
           && (OccursAt(path, key, p + |Marker|)
               || (p + |Marker| < |path| && path[p + |Marker|] == '/' && OccursAt(path, key, p + |Marker| + 1))))
  {
    MatchFromFound(path, 0);
    var p :| 0 <= p <= |path| && MatchesAt(path, p) && MatchFrom(path, 0) == GroupAt(path, p)
      && forall q :: 0 <= q < p ==> !MatchesAt(path, q);
    GroupShape(path, p);
  }

  /** The path `/api/football-data/la-liga` names La Liga. */
  lemma LaLigaPath()
    ensures GetLeagueKey(Some("/api/football-data/la-liga"), None) == "la-liga"
  {
    var path := "/api/football-data/la-liga";
    LaLigaGroup(path);
    forall q | 0 <= q < 5
      ensures !MatchesAt(path, q)
    {
      FirstCharDiffers(path, Marker, q);
    }
    MatchFromLeftmost(path, 0, 5);
  }

  /** The pattern matches `/api/football-data/la-liga` after the `/api/` prefix, capturing `la-liga`. */
  lemma LaLigaGroup(path: string)
    requires path == "/api/football-data/la-liga"
    ensures MatchesAt(path, 5) && GroupAt(path, 5) == Some("la-liga")
  {
    assert path[5..18] == Marker;
    assert path[18] == '/' && IsKeyChar(path[19]);
    var run := KeyRun(path, 19);
    assert |run| == 7 by {
      assert 19 + |run| == |path|;
    }
    assert run == path[19..26] == "la-liga";
  }

  /** A marker with no key character after it, not even after a `/`, leaves the choice to the query. */
  lemma BareMarkerFallsBack(league: Option<string>)
    ensures GetLeagueKey(Some("/football-data/"), league) == (if Truthy(league) then league.value else "premier-league")
  {
    var path := "/football-data/";
    MatchFromNone(path, 0);
    forall p | 0 <= p <= |path|
      ensures !MatchesAt(path, p)
    {
      if p == 0 {
        FirstCharDiffers(path, Marker, 0);
      } else if p == 1 {
        assert GroupAt(path, 1).None?;
      }
    }
  }

  /** A fetched result as the function passes it on, with its scorer fields. */
  datatype ScoredResult = ScoredResult(result: MatchResult, scorers: ScorerLists)

  /** The scorer fields of each result, in order: what `extractLikelyGoalscorers` reads. */
  function ScorersOf(results: seq<ScoredResult>): (r: seq<ScorerLists>)
    ensures |r| == |results| && forall i :: 0 <= i < |r| ==> r[i] == results[i].scorers
  {
    if |results| == 0 then [] else [results[0].scorers] + ScorersOf(results[1..])
  }

  datatype Event = Event(httpMethod: string, path: Option<string>, league: Option<string>)

  datatype Body =
    | EmptyObject
    | Error(message: string)
    | LeagueData(league: string, leagueKey: string, recentResults: seq<ScoredResult>,
                 standings: seq<Standing>, fixtures: seq<Fixture>, likelyGoalscorers: seq<Scorer>)

  datatype Response = Response(status: int, body: Body)

  /**
   * The handler, once the recent results, the table and the fixtures of the
   * chosen league are fetched: CORS pre-flight, method check, league check,
   * then the assembled reply.
   */
  function Handler(event: Event, recent: seq<ScoredResult>, standings: seq<Standing>, fixtures: seq<Fixture>): (res: Response)
    ensures res.status == 200 && res.body == EmptyObject <==> event.httpMethod == "OPTIONS"
    ensures res.status == 405 <==> event.httpMethod != "OPTIONS" && event.httpMethod != "GET"
    ensures res.status == 400 <==> event.httpMethod == "GET" && GetLeagueKey(event.path, event.league) !in Leagues
    ensures res.status == 400 ==> res.body == Error("League '" + GetLeagueKey(event.path, event.league) + "' not supported")
    ensures res.body.LeagueData? <==> event.httpMethod == "GET" && GetLeagueKey(event.path, event.league) in Leagues
    ensures res.body.LeagueData? ==>
      var key := GetLeagueKey(event.path, event.league);
      && res.status == 200
      && res.body.leagueKey == key && res.body.league == Leagues[key].name
      && |res.body.recentResults| == (if |recent| < 8 then |recent| else 8) && res.body.recentResults == recent[..|res.body.recentResults|]
      && |res.body.fixtures| == (if |fixtures| < 10 then |fixtures| else 10) && res.body.fixtures == fixtures[..|res.body.fixtures|]
      && res.body.standings == standings
      && res.body.likelyGoalscorers == LikelyGoalscorers(ScorersOf(recent))
  {
    if event.httpMethod == "OPTIONS" then Response(200, EmptyObject)
    else if event.httpMethod != "GET" then Response(405, Error("Method not allowed"))
    else
      var key := GetLeagueKey(event.path, event.league);
      if key !in Leagues then Response(400, Error("League '" + key + "' not supported"))
      else Response(200, LeagueData(Leagues[key].name, key, Take(recent, 8), standings, Take(fixtures, 10),
                                    LikelyGoalscorers(ScorersOf(recent))))
  }

  /**
   * A reply with data lists at most ten scorers, by goals, each counted over
   * all the fetched results, not only the eight it shows.
   */
  lemma HandlerScorers(event: Event, recent: seq<ScoredResult>, standings: seq<Standing>, fixtures: seq<Fixture>)
    requires Handler(event, recent, standings, fixtures).body.LeagueData?
    ensures var r := Handler(event, recent, standings, fixtures).body.likelyGoalscorers;
      var names := AllNames(ScorersOf(recent));
      && |r| <= 10
      && (forall i, j :: 0 <= i < j < |r| ==> r[i].goals >= r[j].goals)
      && (forall i :: 0 <= i < |r| ==> r[i].name in names && r[i].goals == Occurrences(names, r[i].name))
  {
    LikelyGoalscorersShape(ScorersOf(recent));
  }
}
