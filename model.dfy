/** The entities of the scorekeeping model. Robot, Match, Result and
    FieldSection follow their Java classes field by field; Game, Team,
    District, Event, Scorecard, Weight, ScorecardFieldResult and the other
    ScorecardSection kinds are not part of this model beyond the fields the
    controllers read or write. The classes refer to one another, so they share
    one module. */
module Model {
  import opened Outcomes

  /** Game.java is not part of this model: only the fields updateGame copies. */
  class Game {
    var id: int
    var name: Option<string>
    var year: int
    var gameType: string

    constructor (name: Option<string>, year: int, gameType: string)
      ensures id == 0 && this.name == name && this.year == year && this.gameType == gameType
    {
      id := 0;
      this.name, this.year, this.gameType := name, year, gameType;
    }
  }

  /** Team.java is not part of this model: a team is found by its number and its game's type. */
  class Team {
    const number: int
    const gameType: string

    constructor (number: int, gameType: string)
      ensures this.number == number && this.gameType == gameType
    {
      this.number := number;
      this.gameType := gameType;
    }
  }

  /** District.java is not part of this model: a district is found by its code. */
  class District {
    const code: string

    constructor (code: string)
      ensures this.code == code
    {
      this.code := code;
    }
  }

  /** Event.java is not part of this model: only the two references createEvent sets. */
  class Event {
    var id: int
    var game: Game?
    var district: District?

    constructor (game: Game?, district: District?)
      ensures id == 0 && this.game == game && this.district == district
    {
      id, this.game, this.district := 0, game, district;
    }
  }

  /** A robot. `number` and `year` are primitive ints, so they are always present. */
  class Robot {
    var id: int
    var team: Team?
    var number: int
    var year: int
    var name: Option<string>
    var matches: set<Match>
    var game: Game?

    /** `new Robot()`: every field holds its Java default. */
    constructor ()
      ensures id == 0 && team == null && number == 0 && year == 0
      ensures name == None && matches == {} && game == null
    {
      id, team, number, year := 0, null, 0, 0;
      name, matches, game := None, {}, null;
    }

    /** `new Robot(id)`. */
    constructor WithId(id: int)
      ensures this.id == id && team == null && number == 0 && year == 0
      ensures name == None && matches == {} && game == null
    {
      this.id := id;
      team, number, year := null, 0, 0;
      name, matches, game := None, {}, null;
    }

    function GetId(): int
      reads this
    {
      id
    }

    method SetId(id: int)
      modifies this`id
      ensures GetId() == id
    {
      this.id := id;
    }

    method SetTeam(team: Team?)
      modifies this`team
      ensures this.team == team
    {
      this.team := team;
    }

    method SetNumber(number: int)
      modifies this`number
      ensures this.number == number
    {
      this.number := number;
    }

    method SetYear(year: int)
      modifies this`year
      ensures this.year == year
    {
      this.year := year;
    }

    method SetName(name: Option<string>)
      modifies this`name
      ensures this.name == name
    {
      this.name := name;
    }

    method SetGame(game: Game?)
      modifies this`game
      ensures this.game == game
    {
      this.game := game;
    }
  }

  /** A match of an event, with the robots that play it and the results submitted for it. */
  class Match {
    var id: int
    var event: Event?
    var robots: set<Robot>
    var results: set<Result>
    var number: int
    var matchType: Option<string>

    /** `event` is @NotNull in the default group, `type` in both the
        default and the Creating group (`number` is a primitive int, never null). */
    predicate ValidDefault()
      reads this
      ensures ValidDefault() ==> ValidForCreating()
    {
      event != null && matchType.Some?
    }

    predicate ValidForCreating()
      reads this
    {
      matchType.Some?
    }

    constructor ()
      ensures id == 0 && event == null && robots == {} && results == {}
      ensures number == 0 && matchType == None
      ensures !ValidDefault() && !ValidForCreating()
    {
      id, event, robots, results := 0, null, {}, {};
      number, matchType := 0, None;
    }

    function GetEvent(): Event?
      reads this
    {
      event
    }

    method SetEvent(event: Event?)
      modifies this`event
      ensures GetEvent() == event
    {
      this.event := event;
    }

    method SetNumber(number: int)
      modifies this`number
      ensures this.number == number
    {
      this.number := number;
    }

    method SetType(matchType: Option<string>)
      modifies this`matchType
      ensures this.matchType == matchType
    {
      this.matchType := matchType;
    }
  }

  /** Weight.java is not part of this model: only its back-reference to a field section. */
  class Weight {
    var field: FieldSection?

    constructor (field: FieldSection?)
      ensures this.field == field
    {
      this.field := field;
    }
  }

  datatype FieldType = Count | Rating
  datatype NullWhen = Checked | Unchecked

  /** A scored field of a scorecard. The first three fields belong to
      ScorecardSection, which is not part of this model. */
  class FieldSection {
    var id: int
    var scorecard: Scorecard?
    const weight: Weight?

    var fieldType: Option<FieldType>
    var name: Option<string>
    var nullWhen: Option<NullWhen>
    var checkBoxMessage: Option<string>
    var isOptional: bool

    /** `type` and `name` are @NotNull; `nullWhen` may be absent. */
    predicate Valid()
      reads this
    {
      fieldType.Some? && name.Some?
    }

    /** `new FieldSection()`; the weight is whatever the ScorecardSection part holds. */
    constructor (weight: Weight?)
      ensures this.weight == weight && id == 0 && scorecard == null
      ensures fieldType == None && name == None && nullWhen == None && checkBoxMessage == None
      ensures !IsOptional() && !Valid()
    {
      this.weight := weight;
      id, scorecard := 0, null;
      fieldType, name, nullWhen, checkBoxMessage := None, None, None, None;
      isOptional := false;
    }

    function IsOptional(): bool
      reads this
    {
      isOptional
    }

    method SetOptional(optional: bool)
      modifies this`isOptional
      ensures IsOptional() == optional
    {
      isOptional := optional;
    }

    method SetType(fieldType: Option<FieldType>)
      modifies this`fieldType
      ensures this.fieldType == fieldType
    {
      this.fieldType := fieldType;
    }

    method SetName(name: Option<string>)
      modifies this`name
      ensures this.name == name
    {
      this.name := name;
    }

    method SetNullWhen(nullWhen: Option<NullWhen>)
      modifies this`nullWhen
      ensures this.nullWhen == nullWhen
    {
      this.nullWhen := nullWhen;
    }

    method SetCheckBoxMessage(message: Option<string>)
      modifies this`checkBoxMessage
      ensures checkBoxMessage == message
    {
      checkBoxMessage := message;
    }
  }

  /** Any ScorecardSection that is not a FieldSection; those classes are not part of this model. */
  class OtherSection {
    var id: int
    var scorecard: Scorecard?
    const weight: Weight?

    constructor (weight: Weight?)
      ensures this.weight == weight && id == 0 && scorecard == null
    {
      this.weight := weight;
      id, scorecard := 0, null;
    }
  }

  /** A section of a scorecard, tagged by its kind. */
  datatype ScorecardSection = FieldSec(field: FieldSection) | OtherSec(other: OtherSection)

  /** Scorecard.java is not part of this model: its id, its game and its ordered sections. */
  class Scorecard {
    var id: int
    var game: Game?
    var sections: seq<ScorecardSection>

    constructor (sections: seq<ScorecardSection>)
      ensures id == 0 && game == null && this.sections == sections
    {
      id, game := 0, null;
      this.sections := sections;
    }
  }

  /** ScorecardFieldResult.java is not part of this model: one submitted
      score, possibly null, and the field it is meant for. The list of a
      result may itself hold null entries. */
  class ScorecardFieldResult {
    const id: int
    const score: Option<int>
    var field: FieldSection?

    constructor (id: int, score: Option<int>, field: FieldSection?)
      ensures this.id == id && this.score == score && this.field == field
    {
      this.id, this.score, this.field := id, score, field;
    }
  }

  /** One robot's scores for one match under one scorecard. */
  class Result {
    var id: int
    var matchRef: Match?
    var robot: Robot?
    var scorecard: Scorecard?
    var scores: Option<seq<ScorecardFieldResult?>>

    /** @NotNull on robot and scorecard in the Creating group; the match is not checked there. */
    predicate ValidForCreating()
      reads this
    {
      robot != null && scorecard != null
    }

    /** The three @ManyToOne(optional = false) columns. */
    predicate Persistable()
      reads this
      ensures Persistable() ==> ValidForCreating()
    {
      matchRef != null && robot != null && scorecard != null
    }

    /** `new Result()`: the primitive id is 0 and the scores list is not created. */
    constructor ()
      ensures GetId() == 0 && matchRef == null && robot == null && scorecard == null
      ensures scores == None
      ensures !ValidForCreating() && !Persistable()
    {
      id, matchRef, robot, scorecard, scores := 0, null, null, null, None;
    }

    function GetId(): int
      reads this
    {
      id
    }

    method SetId(id: int)
      modifies this`id
      ensures GetId() == id
    {
      this.id := id;
    }

    method SetMatch(m: Match?)
      modifies this`matchRef
      ensures matchRef == m
    {
      matchRef := m;
    }

    method SetRobot(robot: Robot?)
      modifies this`robot
      ensures this.robot == robot
    {
      this.robot := robot;
    }

    method SetScores(scores: Option<seq<ScorecardFieldResult?>>)
      modifies this`scores
      ensures this.scores == scores
    {
      this.scores := scores;
    }

    method SetScorecard(scorecard: Scorecard?)
      modifies this`scorecard
      ensures this.scorecard == scorecard
    {
      this.scorecard := scorecard;
    }
  }
}
