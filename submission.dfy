/** The value-level pieces of result submission: which scores survive the
    null-score pruning, and which of the three checks rejects a result. */
module Submission {
  import opened Outcomes
  import opened Model

  /** No entry of a submitted scores list is itself null; the pruning
      predicate dereferences every entry. */
  predicate NoNullEntry(s: seq<ScorecardFieldResult?>)
  {
    forall i :: 0 <= i < |s| ==> s[i] != null
  }

  /** The entries of `s` whose score is not null, in their order in `s`:
      the list `removeIf(score == null)` leaves behind. */
  function NonNullScores(s: seq<ScorecardFieldResult>): (r: seq<ScorecardFieldResult>)
    ensures |r| <= |s|
    ensures forall i :: 0 <= i < |r| ==> r[i].score.Some?
  {
    if s == [] then []
    else if s[0].score.Some? then [s[0]] + NonNullScores(s[1..]) else NonNullScores(s[1..])
  }

  /** An entry survives pruning exactly when it was submitted and its score is not null. */
  lemma {:induction false} NonNullScoresMembers(s: seq<ScorecardFieldResult>, x: ScorecardFieldResult)
    ensures x in NonNullScores(s) <==> x in s && x.score.Some?
  {
    if s != [] {
      NonNullScoresMembers(s[1..], x);
      assert s == [s[0]] + s[1..];
    }
  }

  /** Pruning only drops entries: each kept entry occurs in the result at most as often as in the input. */
  lemma {:induction false} NonNullScoresSubMultiset(s: seq<ScorecardFieldResult>)
    ensures multiset(NonNullScores(s)) <= multiset(s)
  {
    if s != [] {
      NonNullScoresSubMultiset(s[1..]);
      assert s == [s[0]] + s[1..];
    }
  }

  /** Pruning works piece by piece, so it keeps the relative order of the entries it keeps. */
  lemma {:induction false} NonNullScoresConcat(a: seq<ScorecardFieldResult>, b: seq<ScorecardFieldResult>)
    ensures NonNullScores(a + b) == NonNullScores(a) + NonNullScores(b)
  {
    if a == [] {
      assert a + b == b;
    } else {
      assert (a + b)[0] == a[0];
      assert (a + b)[1..] == a[1..] + b;
      NonNullScoresConcat(a[1..], b);
    }
  }

  /** Pruning a list extended by one entry keeps that entry exactly when its score is not null. */
  lemma NonNullScoresSnoc(s: seq<ScorecardFieldResult>, x: ScorecardFieldResult)
    ensures NonNullScores(s + [x]) == NonNullScores(s) + (if x.score.Some? then [x] else [])
  {
    NonNullScoresConcat(s, [x]);
    assert [x][1..] == [];
  }

  /** A list with no null score is left as it is. */
  lemma {:induction false} NonNullScoresKeepsScored(s: seq<ScorecardFieldResult>)
    requires forall i :: 0 <= i < |s| ==> s[i].score.Some?
    ensures NonNullScores(s) == s
  {
    if s != [] {
      NonNullScoresKeepsScored(s[1..]);
    }
  }

  /** Pruning twice prunes nothing more. */
  lemma NonNullScoresIdempotent(s: seq<ScorecardFieldResult>)
    ensures NonNullScores(NonNullScores(s)) == NonNullScores(s)
  {
  }

  /** Nothing is dropped exactly when no score is null. */
  lemma {:induction false} NonNullScoresKeepsAllIff(s: seq<ScorecardFieldResult>)
    ensures NonNullScores(s) == s <==> forall i :: 0 <= i < |s| ==> s[i].score.Some?
  {
    if forall i :: 0 <= i < |s| ==> s[i].score.Some? {
      NonNullScoresKeepsScored(s);
    } else {
      var k :| 0 <= k < |s| && s[k].score.None?;
      NonNullScoresMembers(s, s[k]);
      assert s[k] in s;
    }
  }

  /** The state of a Result at the moment its three checks run. */
  datatype ResultView = ResultView(matchRef: Match, robot: Robot, scorecard: Scorecard, scores: seq<ScorecardFieldResult?>)

  /** Result.scoresMatchScorecardSections, Result.allMissingScoresAreOptional
      and Result.gameMatchesScorecard. Their bodies are not part of this
      model, so they are given as arbitrary functions of the result's state. */
  datatype ResultChecks = ResultChecks(
    scoresMatchScorecardSections: ResultView -> bool,
    allMissingScoresAreOptional: ResultView -> bool,
    gameMatchesScorecard: ResultView -> bool)

  /** The error of the first check that fails, in the order the controller
      runs them, or None when all three pass. */
  function FirstFailedCheck(c: ResultChecks, v: ResultView): (r: Option<ApiError>)
    ensures r == None <==>
      c.scoresMatchScorecardSections(v) && c.allMissingScoresAreOptional(v) && c.gameMatchesScorecard(v)
    ensures r == Some(ScoresDoNotMatchScorecard) <==> !c.scoresMatchScorecardSections(v)
    ensures r == Some(RequiredScoresAbsent) <==>
      c.scoresMatchScorecardSections(v) && !c.allMissingScoresAreOptional(v)
    ensures r == Some(GameDoesNotMatchScorecard) <==>
      c.scoresMatchScorecardSections(v) && c.allMissingScoresAreOptional(v) && !c.gameMatchesScorecard(v)
  {
    if !c.scoresMatchScorecardSections(v) then Some(ScoresDoNotMatchScorecard)
    else if !c.allMissingScoresAreOptional(v) then Some(RequiredScoresAbsent)
    else if !c.gameMatchesScorecard(v) then Some(GameDoesNotMatchScorecard)
    else None
  }
}
