/** MatchController: updating a match, and submitting a result for a match. */
module MatchApi {
  import opened Outcomes
  import opened Model
  import opened Repositories
  import opened Submission

  class MatchController {
    const store: Store

    constructor (store: Store)
      ensures this.store == store
    {
      this.store := store;
    }

    /** PUT /matches/{match}: copies the number of the body, and nothing else. */
    method UpdateMatch(m: Match?, newMatch: Match) returns (outcome: Outcome<Match>)
      modifies m
      ensures m == null ==> outcome == Err(NotFound)
      ensures m != null ==> outcome == Ok(m as Match) && m.number == old(newMatch.number)
      ensures m != null ==> unchanged(m`id, m`event, m`matchType, m`robots, m`results)
    {
      if m == null {
        return Err(NotFound);
      }
      m.SetNumber(newMatch.number);
      return Ok(m as Match);
    }

    /** createResult, the scorecard lookup: replaces the submitted scorecard by the stored one with its id, or by null. */
    method ResolveScorecard(result: Result) returns (found: bool)
      requires result.scorecard != null
      modifies result`scorecard
      ensures result.scorecard == old(ScorecardWithId(store.scorecards, result.scorecard.id))
      ensures found <==> result.scorecard != null
    {
      result.SetScorecard(ScorecardWithId(store.scorecards, result.scorecard.id));
      found := result.scorecard != null;
    }

    /** createResult, the pruning step: `removeIf(score == null)` on the result's scores list.
        The predicate reads the score of every entry before anything is
        removed, so a null entry ends the request with the list as it was. */
    method RemoveNullScores(result: Result) returns (pruned: bool)
      requires result.scores.Some?
      modifies result`scores
      ensures pruned <==> NoNullEntry(old(result.scores).value)
      ensures pruned ==> result.scores == Some(NonNullScores(old(result.scores).value))
      ensures !pruned ==> result.scores == old(result.scores)
    {
      var s := result.scores.value;
      var kept: seq<ScorecardFieldResult> := [];
      var i := 0;
      while i < |s|
        invariant 0 <= i <= |s|
        invariant NoNullEntry(s[..i])
        invariant kept == NonNullScores(s[..i])
        invariant result.scores == old(result.scores)
      {
        if s[i] == null {
          return false;
        }
        assert s[..i + 1] == s[..i] + [s[i]];
        NonNullScoresSnoc(s[..i], s[i]);
        if s[i].score.Some? {
          kept := kept + [s[i]];
        }
        i := i + 1;
      }
      assert s[..i] == s;
      result.SetScores(Some(kept));
      return true;
    }

    /** createResult, the robot step: replaces a robot the store knows by its id with the
        stored one; otherwise attaches the team found by (robot number, type
        of the scorecard's game), if any, and saves the submitted robot. */
    method ReconcileRobot(result: Result) returns (created: bool)
      requires store.Valid()
      requires result.robot != null && result.scorecard in store.scorecards
      modifies result`robot, result.robot`team, result.robot`id, store`robots, store`nextId
      ensures store.Valid()
      ensures result.robot != null && result.robot in store.robots
      ensures created <==> old(RobotWithId(store.robots, result.robot.id)) == null
      ensures !created ==> result.robot == old(RobotWithId(store.robots, result.robot.id))
      ensures !created ==> unchanged(old(result.robot)) && unchanged(store)
      ensures created ==> result.robot == old(result.robot) && result.robot !in old(store.robots)
      ensures created ==> store.robots == old(store.robots) + [result.robot] && result.robot.id == old(store.nextId)
      ensures created ==> store.nextId == old(store.nextId) + 1
      ensures created ==>
        var team := old(TeamWith(store.teams, result.robot.number, result.scorecard.game.gameType));
        result.robot.team == if team != null then team else old(result.robot.team)
    {
      var robot := result.robot;
      var existing := RobotWithId(store.robots, robot.GetId());
      if existing == null {
        var team := TeamWith(store.teams, robot.number, result.scorecard.game.gameType);
        if team != null {
          robot.SetTeam(team);
        }
        store.SaveRobot(robot);
        created := true;
      } else {
        result.SetRobot(existing);
        created := false;
      }
    }

    /** How a submission ends once its scores are pruned (createResult,
        from the robot lookup to the save). The arguments after `outcome`
        describe the state before reconciliation: the stored robot with the
        submitted robot's id, the submitted robot with its team and id, the
        result's id, and the store's robot and result tables and next id.
        - A stored robot replaces the submitted one, which keeps its team
          and id, and no robot is saved.
        - Otherwise the submitted robot takes the team stored under its
          number and the scorecard's game type, or keeps its own team, and
          is saved under the next id; it stays saved whatever follows, and
          it cannot meet a Conflict.
        - The first failing check names the error. When every check passes,
          the result is saved under the next id exactly when its (match,
          robot) pair is new, and is a Conflict otherwise. */
    ghost predicate Settled(m: Match, result: Result, checks: ResultChecks, outcome: Outcome<Result>,
                            existing: Robot?, submitted: Robot, team0: Team?, robotId0: int, id0: int,
                            robots0: seq<Robot>, results0: seq<ResultRow>, nextId0: int)
      reads result, submitted, store, result.scorecard
      reads if result.scorecard != null then {result.scorecard.game} else {}
    {
      && result.robot != null && result.scorecard != null && result.scorecard.game != null && result.scores.Some?
      && (existing != null ==>
            && result.robot == existing && store.robots == robots0
            && submitted.team == team0 && submitted.id == robotId0)
      && (existing == null ==>
            && result.robot == submitted
            && store.robots == robots0 + [submitted] && submitted.id == nextId0
            && submitted.team ==
                 (var team := TeamWith(store.teams, submitted.number, result.scorecard.game.gameType);
                  if team != null then team else team0)
            && outcome != Err(Conflict))
      && var next := if existing == null then nextId0 + 1 else nextId0;
         var failed := FirstFailedCheck(checks, ResultView(m, result.robot, result.scorecard, result.scores.value));
         && (failed.Some? ==>
               outcome == Err(failed.value) && store.results == results0 && result.id == id0 && store.nextId == next)
         && (failed.None? && HasRow(results0, m, result.robot) ==>
               outcome == Err(Conflict) && store.results == results0 && result.id == id0 && store.nextId == next)
         && (failed.None? && !HasRow(results0, m, result.robot) ==>
               && outcome.Ok? && result.id == next && store.nextId == next + 1
               && store.results == results0 + [ResultRow(result.id, m, result.robot, result.scorecard)])
    }

    /** POST /matches/{match}/results (createResult). The three checks are
        given as `checks`; the stream over the scores has no terminal
        operation, so it looks nothing up and rejects nothing. */
    method CreateResult(m: Match?, result: Result, checks: ResultChecks) returns (outcome: Outcome<Result>)
      requires store.Valid()
      requires result.ValidForCreating()
      modifies result`scorecard, result`matchRef, result`scores, result`robot, result`id
      modifies result.robot`team, result.robot`id, store`robots, store`results, store`nextId
      ensures store.Valid()
      ensures outcome != Err(ScoresDoNotExist)
      ensures outcome.Ok? ==> outcome.value == result
      // no match
      ensures m == null ==> outcome == Err(NotFound) && unchanged(result, old(result.robot), store)
      // the scorecard is looked up first; if it is unknown nothing else happens
      ensures m != null ==>
        var sc := old(ScorecardWithId(store.scorecards, result.scorecard.id));
        && result.scorecard == sc
        && (sc == null ==>
              && outcome == Err(ScorecardDoesNotExist)
              && unchanged(result`matchRef, result`robot, result`scores, result`id)
              && unchanged(old(result.robot), store))
      // the match is bound; a missing scores list, or a null entry in it, stops the pruning
      ensures m != null && result.scorecard != null ==> result.matchRef == m
      ensures m != null && result.scorecard != null && (old(result.scores).None? || !NoNullEntry(old(result.scores).value)) ==>
        && outcome == Err(NullDereference)
        && result.scores == old(result.scores) && result.robot == old(result.robot) && result.id == old(result.id)
        && unchanged(old(result.robot), store)
      // pruning, then robot reconciliation, the checks and the save
      ensures m != null && result.scorecard != null && old(result.scores).Some? && NoNullEntry(old(result.scores).value) ==>
        result.scores == Some(NonNullScores(old(result.scores).value))
      ensures m != null && result.scorecard != null && old(result.scores).Some? && NoNullEntry(old(result.scores).value) ==>
        Settled(m, result, checks, outcome, old(RobotWithId(store.robots, result.robot.id)), old(result.robot),
                old(result.robot.team), old(result.robot.id), old(result.id),
                old(store.robots), old(store.results), old(store.nextId))
      // the submitted score entries are never modified
      ensures old(result.scores).Some? ==>
        forall i :: 0 <= i < |old(result.scores).value| && old(result.scores).value[i] != null ==>
          unchanged(old(result.scores).value[i])
    {
      if m == null {
        return Err(NotFound);
      }
      var found := ResolveScorecard(result);
      if !found {
        return Err(ScorecardDoesNotExist);
      }
      outcome := AttachAndSubmit(m, result, checks);
    }

    /** createResult, once the scorecard is resolved: binds the match, prunes
        the scores, or fails on a missing list or a null entry, then submits. */
    method AttachAndSubmit(m: Match, result: Result, checks: ResultChecks) returns (outcome: Outcome<Result>)
      requires store.Valid()
      requires result.robot != null && result.scorecard in store.scorecards
      modifies result`matchRef, result`scores, result`robot, result`id, result.robot`team, result.robot`id
      modifies store`robots, store`results, store`nextId
      ensures store.Valid()
      ensures outcome != Err(ScoresDoNotExist)
      ensures outcome.Ok? ==> outcome.value == result
      ensures result.scorecard == old(result.scorecard) && result.matchRef == m
      ensures old(result.scores).None? || !NoNullEntry(old(result.scores).value) ==>
        && outcome == Err(NullDereference)
        && result.scores == old(result.scores) && result.robot == old(result.robot) && result.id == old(result.id)
        && unchanged(old(result.robot), store)
      ensures old(result.scores).Some? && NoNullEntry(old(result.scores).value) ==>
        result.scores == Some(NonNullScores(old(result.scores).value))
      ensures old(result.scores).Some? && NoNullEntry(old(result.scores).value) ==>
        Settled(m, result, checks, outcome, old(RobotWithId(store.robots, result.robot.id)), old(result.robot),
                old(result.robot.team), old(result.robot.id), old(result.id),
                old(store.robots), old(store.results), old(store.nextId))
    {
      result.SetMatch(m);
      if result.scores.None? {
        return Err(NullDereference);
      }
      ghost var existing := RobotWithId(store.robots, result.robot.id);
      var pruned := RemoveNullScores(result);
      if !pruned {
        return Err(NullDereference);
      }
      assert existing == RobotWithId(store.robots, result.robot.id);
      outcome := Submit(m, result, checks);
    }

    /** createResult, once the scores are pruned: robot reconciliation, the
        stream that changes nothing, the three checks and the one save. */
    method Submit(m: Match, result: Result, checks: ResultChecks) returns (outcome: Outcome<Result>)
      requires store.Valid()
      requires result.matchRef == m && result.robot != null && result.scores.Some?
      requires result.scorecard in store.scorecards
      modifies result`robot, result`id, result.robot`team, result.robot`id
      modifies store`robots, store`results, store`nextId
      ensures store.Valid()
      ensures outcome.Ok? ==> outcome.value == result
      ensures outcome.Err? ==> outcome.error in {ScoresDoNotMatchScorecard, RequiredScoresAbsent, GameDoesNotMatchScorecard, Conflict}
      ensures result.scorecard == old(result.scorecard) && result.matchRef == m && result.scores == old(result.scores)
      ensures
        Settled(m, result, checks, outcome, old(RobotWithId(store.robots, result.robot.id)), old(result.robot),
                old(result.robot.team), old(result.robot.id), old(result.id),
                old(store.robots), old(store.results), old(store.nextId))
    {
      ghost var existing := RobotWithId(store.robots, result.robot.id);
      var created := ReconcileRobot(result);
      assert created <==> existing == null;
      // createResult builds a stream of `peek` stages over the scores and closes it without a
      // terminal operation: no entry's field is looked up or replaced here.
      if created {
        assert !HasRow(store.results, m, result.robot);
      }
      outcome := CheckAndSave(result, checks);
    }

    /** createResult, the end: the three checks in order, then the one save. */
    method CheckAndSave(result: Result, checks: ResultChecks) returns (outcome: Outcome<Result>)
      requires store.Valid() && result.Persistable() && result.scores.Some?
      requires result.robot in store.robots && result.scorecard in store.scorecards
      modifies result`id, store`results, store`nextId
      ensures store.Valid()
      ensures outcome.Ok? ==> outcome.value == result
      ensures outcome.Err? ==> outcome.error in {ScoresDoNotMatchScorecard, RequiredScoresAbsent, GameDoesNotMatchScorecard, Conflict}
      ensures
        var failed := FirstFailedCheck(checks, ResultView(result.matchRef, result.robot, result.scorecard, result.scores.value));
        && (failed.Some? ==> outcome == Err(failed.value) && unchanged(result, store))
        && (failed.None? && HasRow(old(store.results), result.matchRef, result.robot) ==>
              outcome == Err(Conflict) && unchanged(result, store))
        && (failed.None? && !HasRow(old(store.results), result.matchRef, result.robot) ==>
              && outcome == Ok(result)
              && result.id == old(store.nextId) && store.nextId == old(store.nextId) + 1
              && store.results == old(store.results) + [ResultRow(result.id, result.matchRef, result.robot, result.scorecard)])
    {
      var failed := FirstFailedCheck(checks, ResultView(result.matchRef, result.robot, result.scorecard, result.scores.value));
      if failed.Some? {
        return Err(failed.value);
      }
      var saved := store.SaveResult(result);
      if !saved {
        return Err(Conflict);
      }
      return Ok(result);
    }

    /** The lookup of createResult's score stream as it would run with a
        terminal operation: each entry's field becomes the section stored
        under the entry's own id (not the id of its field) and the result's
        scorecard, and the first entry without one ends the stream with
        ScoresDoNotExist. */
    method ResolveScoreFields(scores: seq<ScorecardFieldResult>, scorecard: Scorecard) returns (error: Option<ApiError>)
      modifies scores
      ensures error == None || error == Some(ScoresDoNotExist)
      ensures error == None <==>
        forall i :: 0 <= i < |scores| ==> FieldSectionWith(store.fieldSections, scores[i].id, scorecard) != null
      ensures error == None ==>
        forall i :: 0 <= i < |scores| ==> scores[i].field == FieldSectionWith(store.fieldSections, scores[i].id, scorecard)
      ensures forall i :: 0 <= i < |scores| ==>
        scores[i].field == old(scores[i].field) || scores[i].field == FieldSectionWith(store.fieldSections, scores[i].id, scorecard)
    {
      var i := 0;
      while i < |scores|
        invariant 0 <= i <= |scores|
        invariant forall j :: 0 <= j < i ==>
          FieldSectionWith(store.fieldSections, scores[j].id, scorecard) != null
          && scores[j].field == FieldSectionWith(store.fieldSections, scores[j].id, scorecard)
        invariant forall j :: 0 <= j < |scores| ==>
          scores[j].field == old(scores[j].field) || scores[j].field == FieldSectionWith(store.fieldSections, scores[j].id, scorecard)
      {
        var section := FieldSectionWith(store.fieldSections, scores[i].id, scorecard);
        scores[i].field := section;
        if section == null {
          return Some(ScoresDoNotExist);
        }
        i := i + 1;
      }
      return None;
    }
  }
}
