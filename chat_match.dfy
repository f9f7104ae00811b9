/**
 * The chat box's fixture finder (`findMatchIdFromText` in the front end):
 * the id of the first fixture, in list order, that the message names,
 * either by its whole "Home vs Away" label or by variants of the team names.
 */
module ChatMatch {
  import opened Wrappers
  import opened Text

  /** An entry of the fixture list the chat searches: an id and a "Home vs Away" label. */
  datatype MatchOption = MatchOption(id: string, title: string)

  /** The alternatives of `/united|city|football club|fc|town/g`, in the order the regex tries them. */
  const ClubWords: seq<string> := ["united", "city", "football club", "fc", "town"]

  /** The alternative the regex takes at the start of `s`: the first club word, in alternative order, that starts it. */
  function ClubWordAt(s: string): (r: Option<string>)
    ensures r.Some? ==> r.value in ClubWords && OccursAt(s, r.value, 0)
    ensures r.None? ==> forall w :: w in ClubWords ==> !OccursAt(s, w, 0)
  {
    if OccursAt(s, "united", 0) then Some("united")
    else if OccursAt(s, "city", 0) then Some("city")
    else if OccursAt(s, "football club", 0) then Some("football club")
    else if OccursAt(s, "fc", 0) then Some("fc")
    else if OccursAt(s, "town", 0) then Some("town")
    else None
  }

  /**
   * `s.replace(/united|city|football club|fc|town/g, '')`: scanning left to
   * right, a club word starting at the current position is deleted and the
   * scan resumes after it; otherwise the character is kept.
   */
  function StripClubWords(s: string): (r: string)
    ensures |r| <= |s|
    decreases |s|
  {
    if |s| == 0 then ""
    else match ClubWordAt(s)
      case Some(w) => StripClubWords(s[|w|..])
      case None => [s[0]] + StripClubWords(s[1..])
  }

  /** A name in which no club word occurs comes through the replacement unchanged. */
  lemma {:induction false} NoClubWordUnchanged(s: string)
    requires forall w, j :: w in ClubWords ==> !OccursAt(s, w, j)
    ensures StripClubWords(s) == s
    decreases |s|
  {
    if |s| > 0 {
      assert ClubWordAt(s).None?;
      forall w, j | w in ClubWords
        ensures !OccursAt(s[1..], w, j)
      {
        OccursInTail(s, w, j);
      }
      NoClubWordUnchanged(s[1..]);
      assert s == [s[0]] + s[1..];
    }
  }

  /** An occurrence in the tail of `s` is one in `s`, a position further on. */
  lemma OccursInTail(s: string, needle: string, j: int)
    requires |s| > 0
    ensures OccursAt(s[1..], needle, j) <==> j >= 0 && OccursAt(s, needle, j + 1)
  {
    if j >= 0 && j + |needle| <= |s| - 1 {
      assert s[1..][j..j + |needle|] == s[j + 1..j + 1 + |needle|];
    }
  }

  /** A club word at the front is deleted whole, and the scan goes on after it. */
  lemma ClubWordDeleted(w: string, rest: string)
    requires w in ClubWords
    ensures StripClubWords(w + rest) == StripClubWords(rest)
  {
    var s := w + rest;
    assert s[..|w|] == w;
    assert s[|w|..] == rest;
    assert OccursAt(s, w, 0);
    assert s[0] == w[0] && s[1] == w[1];
    if w != "united" {
      FirstCharDiffers(s, "united", 0);
    }
    if w != "city" && w != "united" {
      FirstCharDiffers(s, "city", 0);
    }
    if w == "fc" || w == "town" {
      assert !OccursAt(s, "football club", 0);
    }
    if w == "town" {
      FirstCharDiffers(s, "fc", 0);
    }
    assert ClubWordAt(s) == Some(w);
  }

  /** The six candidate names `[home, away, first words, names without club words]`, already lowercased. */
  function Variations(home: string, away: string): seq<string> {
    [home, away, FirstWord(home), FirstWord(away), Trim(StripClubWords(home)), Trim(StripClubWords(away))]
  }

  /** The three candidates drawn from one team's name. */
  function NameVariations(team: string): seq<string> {
    [team, FirstWord(team), Trim(StripClubWords(team))]
  }

  /** `variation.length > 2 && lowerText.includes(variation)`. */
  predicate Usable(variation: string, lowerText: string) {
    |variation| > 2 && Contains(lowerText, variation)
  }

  /** `variations.some(v => Usable(v, lowerText))`. */
  function AnyUsable(variations: seq<string>, lowerText: string): bool {
    |variations| > 0 && (Usable(variations[0], lowerText) || AnyUsable(variations[1..], lowerText))
  }

  /** `some` holds exactly when one of the candidates is longer than two characters and occurs in the text. */
  lemma {:induction false} AnyUsableIff(variations: seq<string>, lowerText: string)
    ensures AnyUsable(variations, lowerText) <==> exists i :: 0 <= i < |variations| && Usable(variations[i], lowerText)
  {
    if |variations| > 0 {
      AnyUsableIff(variations[1..], lowerText);
      if AnyUsable(variations[1..], lowerText) {
        var i :| 0 <= i < |variations| - 1 && Usable(variations[1..][i], lowerText);
        assert Usable(variations[i + 1], lowerText);
      }
      if exists i :: 0 <= i < |variations| && Usable(variations[i], lowerText) {
        var i :| 0 <= i < |variations| && Usable(variations[i], lowerText);
        if i > 0 {
          assert Usable(variations[1..][i - 1], lowerText);
        }
      }
    }
  }

  /** How a label's two team names are looked for: as the front end does it, or requiring each team. */
  datatype Rule = AsWritten | BothTeams

  /**
   * The team-name test on the lowercased halves of a label. As written,
   * `homeFound` and `awayFound` run the same test over the same six
   * candidates; the corrected rule looks for each team among its own candidates.
   */
  predicate TeamsFound(rule: Rule, lowerText: string, home: string, away: string) {
    match rule
    case AsWritten =>
      var variations := Variations(home, away);
      var homeFound := AnyUsable(variations, lowerText);
      var awayFound := AnyUsable(variations, lowerText);
      homeFound && awayFound
    case BothTeams =>
      AnyUsable(NameVariations(home), lowerText) && AnyUsable(NameVariations(away), lowerText)
  }

  /** The label's parts around `' vs '`. */
  function Teams(title: string): seq<string> {
    Split(title, " vs ")
  }

  /** The entry is named by the text: its whole label occurs, or its two team names are found. */
  predicate Names(rule: Rule, lowerText: string, m: MatchOption) {
    || Contains(lowerText, Lower(m.title))
    || (var teams := Teams(m.title);
        |teams| == 2 && TeamsFound(rule, lowerText, Lower(teams[0]), Lower(teams[1])))
  }

  /** The loop over the entries with its early return: the first entry the text names. */
  function Search(rule: Rule, lowerText: string, matches: seq<MatchOption>): (r: Option<string>)
    ensures r.Some? ==> exists m :: m in matches && m.id == r.value
  {
    if |matches| == 0 then None
    else if Names(rule, lowerText, matches[0]) then Some(matches[0].id)
    else Search(rule, lowerText, matches[1..])
  }

  /** `findMatchIdFromText(text, matches)`; `None` is the `null` result. */
  function FindMatchIdFromText(text: string, matches: seq<MatchOption>): Option<string> {
    Search(AsWritten, Lower(text), matches)
  }

  /** The corrected finder: a team-name match needs a reference to each of the two teams. */
  function FindMatchIdBothTeams(text: string, matches: seq<MatchOption>): Option<string> {
    Search(BothTeams, Lower(text), matches)
  }

  /** The search comes back empty exactly when no entry is named. */
  lemma {:induction false} SearchNone(rule: Rule, lowerText: string, matches: seq<MatchOption>)
    ensures Search(rule, lowerText, matches).None? <==> forall j :: 0 <= j < |matches| ==> !Names(rule, lowerText, matches[j])
  {
    if |matches| > 0 {
      SearchNone(rule, lowerText, matches[1..]);
      if !Names(rule, lowerText, matches[0]) {
        forall j | 0 < j < |matches|
          ensures matches[j] == matches[1..][j - 1]
        {
        }
      }
    }
  }

  /** When entry `k` is named and none before it is, the search returns entry `k`'s id. */
  lemma {:induction false} SearchFirst(rule: Rule, lowerText: string, matches: seq<MatchOption>, k: nat)
    requires k < |matches| && Names(rule, lowerText, matches[k])
    requires forall j :: 0 <= j < k ==> !Names(rule, lowerText, matches[j])
    ensures Search(rule, lowerText, matches) == Some(matches[k].id)
  {
    if k > 0 {
      assert !Names(rule, lowerText, matches[0]);
      forall j | 0 <= j < k - 1
        ensures !Names(rule, lowerText, matches[1..][j])
      {
        assert matches[1..][j] == matches[j + 1];
      }
      SearchFirst(rule, lowerText, matches[1..], k - 1);
    }
  }

  /** A found id belongs to an entry that is named, with no named entry before it. */
  lemma {:induction false} SearchFound(rule: Rule, lowerText: string, matches: seq<MatchOption>)
    requires Search(rule, lowerText, matches).Some?
    ensures exists k :: (0 <= k < |matches| && matches[k].id == Search(rule, lowerText, matches).value
      && Names(rule, lowerText, matches[k]) && forall j :: 0 <= j < k ==> !Names(rule, lowerText, matches[j]))
  {
    if Names(rule, lowerText, matches[0]) {
      assert matches[0].id == Search(rule, lowerText, matches).value;
    } else {
      var tail := matches[1..];
      SearchFound(rule, lowerText, tail);
      var k :| 0 <= k < |tail| && tail[k].id == Search(rule, lowerText, tail).value
        && Names(rule, lowerText, tail[k]) && forall j :: 0 <= j < k ==> !Names(rule, lowerText, tail[j]);
      assert matches[k + 1] == tail[k];
      forall j | 0 <= j < k + 1
        ensures !Names(rule, lowerText, matches[j])
      {
        if j > 0 {
          assert matches[j] == tail[j - 1];
        }
      }
    }
  }

  /** The first entry whose whole label occurs in the message wins, unless an earlier entry is named. */
  lemma LabelInText(text: string, matches: seq<MatchOption>, k: nat)
    requires k < |matches| && Contains(Lower(text), Lower(matches[k].title))
    requires forall j :: 0 <= j < k ==> !Names(AsWritten, Lower(text), matches[j])
    ensures FindMatchIdFromText(text, matches) == Some(matches[k].id)
  {
    SearchFirst(AsWritten, Lower(text), matches, k);
  }

  /** A label without `' vs '` is a single part, so only the whole-label test applies to it. */
  lemma SinglePartLabel(rule: Rule, lowerText: string, m: MatchOption)
    requires forall j :: !OccursAt(m.title, " vs ", j)
    ensures Names(rule, lowerText, m) <==> Contains(lowerText, Lower(m.title))
  {
    IndexFromFirst(m.title, " vs ", 0);
    assert Teams(m.title) == [m.title];
  }

  /** A label that splits into two parts has `' vs '` in it. */
  lemma TwoPartsHaveSeparator(title: string)
    requires |Teams(title)| == 2
    ensures exists j :: OccursAt(title, " vs ", j)
  {
    IndexFromFirst(title, " vs ", 0);
    var k := IndexFrom(title, " vs ", 0);
    assert k >= 0;
    assert OccursAt(title, " vs ", k);
  }

  /**
   * As written, candidates of two characters or fewer never count, and any
   * one longer candidate that occurs in the text is enough: `homeFound` and
   * `awayFound` always agree.
   */
  lemma AsWrittenOneVariation(lowerText: string, home: string, away: string)
    ensures TeamsFound(AsWritten, lowerText, home, away)
        <==> exists i :: 0 <= i < 6 && Usable(Variations(home, away)[i], lowerText)
  {
    AnyUsableIff(Variations(home, away), lowerText);
  }

  /** As written, a message naming only the home team, by a name longer than two characters, selects the fixture. */
  lemma HomeTeamAlone(lowerText: string, m: MatchOption)
    requires |Teams(m.title)| == 2
    requires |Teams(m.title)[0]| > 2 && Contains(lowerText, Lower(Teams(m.title)[0]))
    ensures Names(AsWritten, lowerText, m)
  {
    var home := Lower(Teams(m.title)[0]);
    var away := Lower(Teams(m.title)[1]);
    assert Usable(Variations(home, away)[0], lowerText);
    AnyUsableIff(Variations(home, away), lowerText);
  }

  /** The text "abc" and the single fixture "Abc vs Def". */
  const OneFixture: seq<MatchOption> := [MatchOption("1", "Abc vs Def")]

  /** The label "Abc vs Def" splits into "Abc" and "Def". */
  lemma OneFixtureTeams()
    ensures Teams(OneFixture[0].title) == ["Abc", "Def"]
  {
    var title := OneFixture[0].title;
    var sep := " vs ";
    assert title[3..7] == sep;
    FirstCharDiffers(title, sep, 0);
    FirstCharDiffers(title, sep, 1);
    FirstCharDiffers(title, sep, 2);
    IndexFromFirst(title, sep, 0);
    assert IndexFrom(title, sep, 0) == 3;
    assert title[..3] == "Abc" && title[7..] == "Def";
    assert IndexFrom("Def", sep, 0) == -1;
  }

  /** The one candidate longer than two characters that "abc" contains is "abc" itself. */
  lemma LongSubstringOfAbc(v: string)
    requires Usable(v, "abc")
    ensures v == "abc"
  {
    ContainsIff("abc", v);
    var j :| OccursAt("abc", v, j);
    assert j == 0 && |v| == 3;
    assert v == "abc"[0..3];
  }

  /** Every candidate drawn from the name "def" is "def". */
  lemma DefVariations()
    ensures NameVariations("def") == ["def", "def", "def"]
  {
    var t := "def";
    FirstCharDiffers(t, " ", 0);
    FirstCharDiffers(t, " ", 1);
    FirstCharDiffers(t, " ", 2);
    IndexFromFirst(t, " ", 0);
    assert FirstWord(t) == t;
    forall w, j | w in ClubWords
      ensures !OccursAt(t, w, j)
    {
      if w == "fc" && 0 <= j <= 1 {
        FirstCharDiffers(t, w, j);
      }
    }
    NoClubWordUnchanged(t);
    assert TrimStart(t) == t && TrimEnd(t) == t;
  }

  /**
   * The comment says both teams must be referenced, but the message "abc"
   * selects "Abc vs Def" without mentioning "def"; the corrected finder
   * does not select it.
   */
  lemma AwayTeamNotNeeded()
    ensures FindMatchIdFromText("abc", OneFixture) == Some("1")
    ensures !Contains("abc", "def")
    ensures FindMatchIdBothTeams("abc", OneFixture) == None
  {
    AbcSelected();
    AbcNotBothTeams();
    if Usable("def", "abc") {
      LongSubstringOfAbc("def");
    }
  }

  /** As written, "abc" selects the fixture "Abc vs Def". */
  lemma AbcSelected()
    ensures FindMatchIdFromText("abc", OneFixture) == Some("1")
  {
    OneFixtureTeams();
    var m := OneFixture[0];
    assert Lower("abc") == "abc";
    assert Lower("Abc") == "abc";
    assert Contains("abc", "abc") by {
      ContainsIff("abc", "abc");
      assert OccursAt("abc", "abc", 0);
    }
    HomeTeamAlone("abc", m);
  }

  /** Under the corrected rule, "abc" does not select "Abc vs Def": nothing of "def" occurs in it. */
  lemma AbcNotBothTeams()
    ensures FindMatchIdBothTeams("abc", OneFixture) == None
  {
    OneFixtureTeams();
    var m := OneFixture[0];
    assert Lower("abc") == "abc";
    assert Lower("Def") == "def";
    assert !Contains("abc", Lower(m.title)) by {
      if Usable(Lower(m.title), "abc") {
        LongSubstringOfAbc(Lower(m.title));
      }
    }
    DefVariations();
    assert !AnyUsable(NameVariations("def"), "abc") by {
      if Usable("def", "abc") {
        LongSubstringOfAbc("def");
      }
    }
    assert !Names(BothTeams, "abc", m);
  }

  /** Under the corrected rule, a team-name match means a candidate of each team occurs in the text. */
  lemma BothTeamsNamed(lowerText: string, m: MatchOption)
    requires Names(BothTeams, lowerText, m) && !Contains(lowerText, Lower(m.title))
    ensures |Teams(m.title)| == 2
    ensures exists i :: 0 <= i < 3 && Usable(NameVariations(Lower(Teams(m.title)[0]))[i], lowerText)
    ensures exists i :: 0 <= i < 3 && Usable(NameVariations(Lower(Teams(m.title)[1]))[i], lowerText)
  {
    AnyUsableIff(NameVariations(Lower(Teams(m.title)[0])), lowerText);
    AnyUsableIff(NameVariations(Lower(Teams(m.title)[1])), lowerText);
  }

  /** The corrected rule only narrows the front end's: whatever it selects, the front end's test names too. */
  lemma BothTeamsNarrows(lowerText: string, m: MatchOption)
    requires Names(BothTeams, lowerText, m)
    ensures Names(AsWritten, lowerText, m)
  {
    if !Contains(lowerText, Lower(m.title)) {
      var home := Lower(Teams(m.title)[0]);
      var away := Lower(Teams(m.title)[1]);
      AnyUsableIff(NameVariations(home), lowerText);
      AnyUsableIff(Variations(home, away), lowerText);
      var i :| 0 <= i < 3 && Usable(NameVariations(home)[i], lowerText);
      assert Variations(home, away)[2 * i] == NameVariations(home)[i];
    }
  }
}
