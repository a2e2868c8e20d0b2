/** The Spring Data repositories the controllers use, as one in-memory store.
    A table is the sequence of the entities saved into it; saving a new entity
    gives it an id drawn from one shared counter, as a generated id is. */
module Repositories {
  import opened Model

  /** A stored Result: its id and the three foreign keys of its table. */
  datatype ResultRow = ResultRow(id: int, matchRef: Match, robot: Robot, scorecard: Scorecard)

  /** findById over the robot table: the first robot with that id, or null. */
  function RobotWithId(robots: seq<Robot>, id: int): (r: Robot?)
    reads robots`id
    ensures r != null ==> r in robots && r.id == id
    ensures r == null <==> forall i :: 0 <= i < |robots| ==> robots[i].id != id
  {
    if robots == [] then null
    else if robots[0].id == id then robots[0]
    else RobotWithId(robots[1..], id)
  }

  /** findById over the scorecard table. */
  function ScorecardWithId(scorecards: seq<Scorecard>, id: int): (r: Scorecard?)
    reads scorecards`id
    ensures r != null ==> r in scorecards && r.id == id
    ensures r == null <==> forall i :: 0 <= i < |scorecards| ==> scorecards[i].id != id
  {
    if scorecards == [] then null
    else if scorecards[0].id == id then scorecards[0]
    else ScorecardWithId(scorecards[1..], id)
  }

  /** Game.getScorecard(): the inverse side of the one-to-one association,
      that is, the stored scorecard whose game is `game`. */
  function ScorecardForGame(scorecards: seq<Scorecard>, game: Game): (r: Scorecard?)
    reads scorecards`game
    ensures r != null ==> r in scorecards && r.game == game
    ensures r == null <==> forall i :: 0 <= i < |scorecards| ==> scorecards[i].game != game
  {
    if scorecards == [] then null
    else if scorecards[0].game == game then scorecards[0]
    else ScorecardForGame(scorecards[1..], game)
  }

  /** TeamRepository.findByNumberAndGameType. */
  function TeamWith(teams: seq<Team>, number: int, gameType: string): (r: Team?)
    ensures r != null ==> r in teams && r.number == number && r.gameType == gameType
    ensures r == null <==> forall i :: 0 <= i < |teams| ==> teams[i].number != number || teams[i].gameType != gameType
  {
    if teams == [] then null
    else if teams[0].number == number && teams[0].gameType == gameType then teams[0]
    else TeamWith(teams[1..], number, gameType)
  }

  /** DistrictRepository.findByCode. */
  function DistrictWithCode(districts: seq<District>, code: string): (r: District?)
    ensures r != null ==> r in districts && r.code == code
    ensures r == null <==> forall i :: 0 <= i < |districts| ==> districts[i].code != code
  {
    if districts == [] then null
    else if districts[0].code == code then districts[0]
    else DistrictWithCode(districts[1..], code)
  }

  /** FieldSectionRepository.findByIdAndScorecard. */
  function FieldSectionWith(sections: seq<FieldSection>, id: int, scorecard: Scorecard): (r: FieldSection?)
    reads sections`id, sections`scorecard
    ensures r != null ==> r in sections && r.id == id && r.scorecard == scorecard
    ensures r == null <==> forall i :: 0 <= i < |sections| ==> sections[i].id != id || sections[i].scorecard != scorecard
  {
    if sections == [] then null
    else if sections[0].id == id && sections[0].scorecard == scorecard then sections[0]
    else FieldSectionWith(sections[1..], id, scorecard)
  }

  /** Whether some row has this (match, robot) pair. */
  predicate HasRow(rows: seq<ResultRow>, m: Match, r: Robot)
  {
    exists i :: 0 <= i < |rows| && rows[i].matchRef == m && rows[i].robot == r
  }

  /** No two rows share a (match, robot) pair: Result's unique constraint. */
  ghost predicate ResultKeysUnique(rows: seq<ResultRow>)
  {
    forall i, j :: 0 <= i < j < |rows| ==> rows[i].matchRef != rows[j].matchRef || rows[i].robot != rows[j].robot
  }

  /** Ids of a table are distinct and below the next id to hand out. */
  ghost predicate RobotIdsFresh(robots: seq<Robot>, nextId: int)
    reads robots`id
  {
    && (forall i :: 0 <= i < |robots| ==> robots[i].id < nextId)
    && (forall i, j :: 0 <= i < j < |robots| ==> robots[i].id != robots[j].id)
  }

  ghost predicate ScorecardIdsFresh(scorecards: seq<Scorecard>, nextId: int)
    reads scorecards`id
  {
    && (forall i :: 0 <= i < |scorecards| ==> scorecards[i].id < nextId)
    && (forall i, j :: 0 <= i < j < |scorecards| ==> scorecards[i].id != scorecards[j].id)
  }

  /** Every stored scorecard has a game, and no game has two scorecards. */
  ghost predicate OneScorecardPerGame(scorecards: seq<Scorecard>)
    reads scorecards`game
  {
    && (forall i :: 0 <= i < |scorecards| ==> scorecards[i].game != null)
    && (forall i, j :: 0 <= i < j < |scorecards| ==> scorecards[i].game != scorecards[j].game)
  }

  ghost predicate ResultIdsFresh(rows: seq<ResultRow>, nextId: int)
  {
    && (forall i :: 0 <= i < |rows| ==> rows[i].id < nextId)
    && (forall i, j :: 0 <= i < j < |rows| ==> rows[i].id != rows[j].id)
  }

  ghost predicate EventIdsFresh(events: seq<Event>, nextId: int)
    reads events`id
  {
    && (forall i :: 0 <= i < |events| ==> events[i].id < nextId)
    && (forall i, j :: 0 <= i < j < |events| ==> events[i].id != events[j].id)
  }

  /** No two teams share a (number, game type) pair, so findByNumberAndGameType
      never meets two rows. */
  predicate TeamKeysUnique(teams: seq<Team>)
  {
    forall i, j :: 0 <= i < j < |teams| ==> teams[i].number != teams[j].number || teams[i].gameType != teams[j].gameType
  }

  /** No two districts share a code, so findByCode never meets two rows. */
  predicate DistrictCodesUnique(districts: seq<District>)
  {
    forall i, j :: 0 <= i < j < |districts| ==> districts[i].code != districts[j].code
  }

  /** With unique keys the team lookup finds every stored team by its own key. */
  lemma TeamWithFindsEachTeam(teams: seq<Team>, k: int)
    requires TeamKeysUnique(teams) && 0 <= k < |teams|
    ensures TeamWith(teams, teams[k].number, teams[k].gameType) == teams[k]
  {
  }

  /** With unique codes the district lookup finds every stored district by its own code. */
  lemma DistrictWithCodeFindsEachDistrict(districts: seq<District>, k: int)
    requires DistrictCodesUnique(districts) && 0 <= k < |districts|
    ensures DistrictWithCode(districts, districts[k].code) == districts[k]
  {
  }

  class Store {
    var nextId: int
    var scorecards: seq<Scorecard>
    var robots: seq<Robot>
    var teams: seq<Team>
    var districts: seq<District>
    var fieldSections: seq<FieldSection>
    var events: seq<Event>
    var results: seq<ResultRow>

    /** The store's integrity: the robot, scorecard, event and result ids
        drawn so far are distinct and below the next id; one scorecard per
        game; unique (match, robot) pairs; unique team and district keys;
        and result rows whose robot and scorecard foreign keys point into
        their tables (matches have no table here). */
    ghost predicate Valid()
      reads this, scorecards`id, scorecards`game, robots`id, events`id
    {
      && RobotIdsFresh(robots, nextId)
      && EventIdsFresh(events, nextId)
      && ResultIdsFresh(results, nextId)
      && TeamKeysUnique(teams)
      && DistrictCodesUnique(districts)
      && ScorecardIdsFresh(scorecards, nextId)
      && OneScorecardPerGame(scorecards)
      && ResultKeysUnique(results)
      && (forall i :: 0 <= i < |results| ==> results[i].robot in robots && results[i].scorecard in scorecards)
    }

    /** A store whose teams, districts and field sections, written by parts
        of the system outside this model, are given; every other table is
        empty and the first generated id is 1. */
    constructor (teams: seq<Team>, districts: seq<District>, fieldSections: seq<FieldSection>)
      requires TeamKeysUnique(teams) && DistrictCodesUnique(districts)
      ensures Valid()
      ensures this.teams == teams && this.districts == districts && this.fieldSections == fieldSections
      ensures nextId == 1 && scorecards == [] && robots == [] && events == [] && results == []
    {
      this.teams, this.districts, this.fieldSections := teams, districts, fieldSections;
      nextId, scorecards, robots, events, results := 1, [], [], [], [];
    }

    /** Whether a stored result already has this (match, robot) pair. */
    predicate HasResultFor(m: Match, r: Robot)
      reads this
    {
      HasRow(results, m, r)
    }

    /** robotRepository.save of a robot that is not stored yet: it gets a fresh id and a row. */
    method SaveRobot(r: Robot)
      requires Valid() && r !in robots
      modifies this`robots, this`nextId, r`id
      ensures Valid()
      ensures r.id == old(nextId) && nextId == old(nextId) + 1
      ensures robots == old(robots) + [r]
    {
      r.id := nextId;
      robots := robots + [r];
      nextId := nextId + 1;
    }

    /** resultRepository.save: the unique constraint on (match, robot) rejects a second row. */
    method SaveResult(result: Result) returns (saved: bool)
      requires Valid() && result.Persistable()
      requires result.robot in robots && result.scorecard in scorecards
      modifies this`results, this`nextId, result`id
      ensures Valid()
      ensures saved <==> !old(HasResultFor(result.matchRef, result.robot))
      ensures saved ==> result.id == old(nextId) && nextId == old(nextId) + 1
      ensures saved ==> results == old(results) + [ResultRow(result.id, result.matchRef, result.robot, result.scorecard)]
      ensures !saved ==> result.id == old(result.id) && nextId == old(nextId) && results == old(results)
    {
      saved := !HasResultFor(result.matchRef, result.robot);
      if saved {
        result.id := nextId;
        results := results + [ResultRow(nextId, result.matchRef, result.robot, result.scorecard)];
        nextId := nextId + 1;
      }
    }

    /** scorecardRepository.saveAndFlush of a new scorecard whose game has none yet. */
    method SaveScorecard(sc: Scorecard)
      requires Valid() && sc !in scorecards && sc.game != null
      requires ScorecardForGame(scorecards, sc.game) == null
      modifies this`scorecards, this`nextId, sc`id
      ensures Valid()
      ensures sc.id == old(nextId) && nextId == old(nextId) + 1
      ensures scorecards == old(scorecards) + [sc]
    {
      sc.id := nextId;
      scorecards := scorecards + [sc];
      nextId := nextId + 1;
    }

    /** eventRepository.saveAndFlush of a new event: it gets a fresh id and a row. */
    method SaveEvent(e: Event)
      requires Valid() && e !in events
      modifies this`events, this`nextId, e`id
      ensures Valid()
      ensures e.id == old(nextId) && nextId == old(nextId) + 1
      ensures events == old(events) + [e]
    {
      e.id := nextId;
      events := events + [e];
      nextId := nextId + 1;
    }
  }
}
