/** GameController (version 1 of the API): updating a game, creating an
    event for a game, listing a game's scorecards and creating its scorecard. */
module GameApi {
  import opened Outcomes
  import opened Model
  import opened Repositories

  /** The field sections listed among `sections`. */
  function FieldSectionsIn(sections: seq<ScorecardSection>): set<FieldSection>
  {
    set i | 0 <= i < |sections| && sections[i].FieldSec? :: sections[i].field
  }

  /** The sections of every other kind listed among `sections`. */
  function OtherSectionsIn(sections: seq<ScorecardSection>): set<OtherSection>
  {
    set i | 0 <= i < |sections| && sections[i].OtherSec? :: sections[i].other
  }

  /** The weights held by the field sections listed among `sections`. */
  function FieldWeightsIn(sections: seq<ScorecardSection>): set<Weight>
  {
    set i | 0 <= i < |sections| && sections[i].FieldSec? && sections[i].field.weight != null :: sections[i].field.weight as Weight
  }

  /** The position of the first field section without a weight, or the
      length of the list when every field section has one: the weight loop
      of createScorecard stops with a null dereference there. */
  function NullWeightIndex(sections: seq<ScorecardSection>): (k: nat)
    ensures k <= |sections|
    ensures forall j :: 0 <= j < k ==> !sections[j].FieldSec? || sections[j].field.weight != null
    ensures k < |sections| ==> sections[k].FieldSec? && sections[k].field.weight == null
  {
    if sections == [] then 0
    else if sections[0].FieldSec? && sections[0].field.weight == null then 0
    else 1 + NullWeightIndex(sections[1..])
  }

  /** The last field section in `sections` that holds weight `w`: the one
      whose `weight.setField` call runs last, or null when none holds it. */
  function LastWithWeight(sections: seq<ScorecardSection>, w: Weight): (r: FieldSection?)
    ensures r != null ==> r.weight == w && r in FieldSectionsIn(sections)
    ensures r == null <==> forall j :: 0 <= j < |sections| ==> !sections[j].FieldSec? || sections[j].field.weight != w
  {
    if sections == [] then null
    else
      var last := sections[|sections| - 1];
      if last.FieldSec? && last.field.weight == w then last.field
      else LastWithWeight(sections[..|sections| - 1], w)
  }

  /** No two field sections share a weight object. */
  predicate DistinctWeights(sections: seq<ScorecardSection>)
  {
    forall i, j :: 0 <= i < j < |sections| && sections[i].FieldSec? && sections[j].FieldSec? && sections[i].field.weight != null ==>
      sections[i].field.weight != sections[j].field.weight
  }

  /** When no two field sections share a weight, the back-reference of each
      weight is the very section that holds it. */
  lemma LastWithWeightIsOwner(sections: seq<ScorecardSection>, j: int)
    requires DistinctWeights(sections)
    requires 0 <= j < |sections| && sections[j].FieldSec? && sections[j].field.weight != null
    ensures LastWithWeight(sections, sections[j].field.weight as Weight) == sections[j].field
  {
  }

  class GameController {
    const store: Store

    constructor (store: Store)
      ensures this.store == store
    {
      this.store := store;
    }

    /** PUT /games/{game}: copies the name, year and type of the body, and nothing else. */
    method UpdateGame(game: Game?, newGame: Game) returns (outcome: Outcome<Game>)
      modifies game
      ensures game == null ==> outcome == Err(NotFound)
      ensures game != null ==>
        && outcome == Ok(game as Game)
        && game.name == old(newGame.name) && game.year == old(newGame.year) && game.gameType == old(newGame.gameType)
        && game.id == old(game.id)
    {
      if game == null {
        return Err(NotFound);
      }
      var name, year, gameType := newGame.name, newGame.year, newGame.gameType;
      game.name := name;
      game.year := year;
      game.gameType := gameType;
      return Ok(game as Game);
    }

    /** POST /games/{game}/events: binds the event to the game, and replaces
        a submitted district by the stored district with the same code. */
    method CreateEvent(game: Game?, event: Event) returns (outcome: Outcome<Event>)
      requires store.Valid() && event !in store.events
      modifies event`game, event`district, event`id, store`events, store`nextId
      ensures store.Valid()
      ensures game == null ==> outcome == Err(NotFound) && unchanged(event, store)
      ensures game != null ==> event.game == game
      ensures game != null && old(event.district) == null ==>
        && event.district == null
        && outcome == Ok(event) && store.events == old(store.events) + [event]
        && event.id == old(store.nextId) && store.nextId == old(store.nextId) + 1
      ensures game != null && old(event.district) != null ==>
        var district := DistrictWithCode(store.districts, old(event.district.code));
        && event.district == district
        && (district == null ==>
              && outcome == Err(DistrictDoesNotExist)
              && store.events == old(store.events) && event.id == old(event.id) && store.nextId == old(store.nextId))
        && (district != null ==>
              && outcome == Ok(event) && store.events == old(store.events) + [event]
              && event.id == old(store.nextId) && store.nextId == old(store.nextId) + 1)
    {
      if game == null {
        return Err(NotFound);
      }
      event.game := game;
      if event.district != null {
        event.district := DistrictWithCode(store.districts, event.district.code);
        if event.district == null {
          return Err(DistrictDoesNotExist);
        }
      }
      store.SaveEvent(event);
      return Ok(event);
    }

    /** GET /games/{game}/scorecards: no list for a missing game; otherwise
        the game's scorecard as a one-element list, or the empty list. */
    function GetAllScorecards(game: Game?): (r: Outcome<seq<Scorecard>>)
      reads store, store.scorecards
      ensures game == null <==> r == Err(NotFound)
      ensures game != null ==> r.Ok? && |r.value| <= 1
      ensures game != null ==>
        (r.value == [] <==> forall i :: 0 <= i < |store.scorecards| ==> store.scorecards[i].game != game)
      ensures game != null && r.value != [] ==> r.value[0] in store.scorecards && r.value[0].game == game
    {
      if game == null then Err(NotFound)
      else
        var sc := ScorecardForGame(store.scorecards, game);
        if sc == null then Ok([]) else Ok([sc as Scorecard])
    }

    /** In a valid store the list holds the game's one scorecard. */
    lemma GetAllScorecardsIsTheScorecard(game: Game, sc: Scorecard)
      requires store.Valid() && sc in store.scorecards && sc.game == game
      ensures GetAllScorecards(game) == Ok([sc])
    {
    }

    /** POST /games/{game}/scorecards (createScorecard): one scorecard per
        game; the scorecard is bound to the game, every section to the
        scorecard and every field section's weight to its field section,
        in list order, and then the scorecard is saved. */
    method CreateScorecard(game: Game?, scorecard: Scorecard) returns (outcome: Outcome<Scorecard>)
      requires store.Valid() && scorecard !in store.scorecards
      modifies scorecard`game, scorecard`id, store`scorecards, store`nextId
      modifies FieldSectionsIn(scorecard.sections)`scorecard, OtherSectionsIn(scorecard.sections)`scorecard
      modifies FieldWeightsIn(scorecard.sections)`field
      ensures store.Valid()
      ensures outcome.Ok? ==> outcome.value == scorecard
      // a missing game, or a game that has a scorecard, changes nothing
      ensures game == null ==> outcome == Err(NotFound)
      ensures game != null && old(ScorecardForGame(store.scorecards, game)) != null ==>
        outcome == Err(GameAlreadyHasScorecard)
      ensures game == null || old(ScorecardForGame(store.scorecards, game)) != null ==>
        && unchanged(scorecard, store)
        && unchanged(FieldSectionsIn(scorecard.sections), OtherSectionsIn(scorecard.sections), FieldWeightsIn(scorecard.sections))
      // the bindings, then the save
      ensures game != null && old(ScorecardForGame(store.scorecards, game)) == null ==>
        var sections := scorecard.sections;
        var k := NullWeightIndex(sections);
        && scorecard.game == game
        && (forall j :: 0 <= j < |sections| ==> ((sections[j].FieldSec? ==> sections[j].field.scorecard == scorecard) && (sections[j].OtherSec? ==> sections[j].other.scorecard == scorecard)))
        && (forall w :: w in FieldWeightsIn(sections) ==>
              w.field == (var last := LastWithWeight(sections[..k], w); if last != null then last else old(w.field)))
        && (k < |sections| ==> outcome == Err(NullDereference) && unchanged(store))
        && (k == |sections| ==>
              && outcome.Ok?
              && store.scorecards == old(store.scorecards) + [scorecard] && scorecard.id == old(store.nextId)
              && GetAllScorecards(game) == Ok([scorecard]))
    {
      if game == null {
        return Err(NotFound);
      }
      if ScorecardForGame(store.scorecards, game) != null {
        return Err(GameAlreadyHasScorecard);
      }
      outcome := BindAndSave(game, scorecard);
    }

    /** createScorecard, once the game is known to have no scorecard: binds the
        references, then saves the scorecard unless a field section without a
        weight stopped the binding. */
    method BindAndSave(game: Game, scorecard: Scorecard) returns (outcome: Outcome<Scorecard>)
      requires store.Valid() && scorecard !in store.scorecards
      requires ScorecardForGame(store.scorecards, game) == null
      modifies scorecard`game, scorecard`id, store`scorecards, store`nextId
      modifies FieldSectionsIn(scorecard.sections)`scorecard, OtherSectionsIn(scorecard.sections)`scorecard
      modifies FieldWeightsIn(scorecard.sections)`field
      ensures store.Valid()
      ensures scorecard.game == game
      ensures forall j :: 0 <= j < |scorecard.sections| ==> ((scorecard.sections[j].FieldSec? ==> scorecard.sections[j].field.scorecard == scorecard) && (scorecard.sections[j].OtherSec? ==> scorecard.sections[j].other.scorecard == scorecard))
      ensures forall w :: w in FieldWeightsIn(scorecard.sections) ==>
        w.field == (var last := LastWithWeight(scorecard.sections[..NullWeightIndex(scorecard.sections)], w);
                    if last != null then last else old(w.field))
      ensures NullWeightIndex(scorecard.sections) < |scorecard.sections| ==>
        outcome == Err(NullDereference) && unchanged(store)
      ensures NullWeightIndex(scorecard.sections) == |scorecard.sections| ==>
        && outcome == Ok(scorecard)
        && store.scorecards == old(store.scorecards) + [scorecard] && scorecard.id == old(store.nextId)
        && GetAllScorecards(game) == Ok([scorecard])
    {
      var bound := BindReferences(game, scorecard);
      if !bound {
        return Err(NullDereference);
      }
      outcome := SaveBoundScorecard(game, scorecard);
    }

    /** createScorecard, the save: the bound scorecard is saved under a fresh id and is
        from then on the one scorecard listed for its game. */
    method SaveBoundScorecard(game: Game, scorecard: Scorecard) returns (outcome: Outcome<Scorecard>)
      requires store.Valid() && scorecard !in store.scorecards && scorecard.game == game
      requires ScorecardForGame(store.scorecards, game) == null
      modifies scorecard`id, store`scorecards, store`nextId
      ensures store.Valid()
      ensures outcome == Ok(scorecard)
      ensures store.scorecards == old(store.scorecards) + [scorecard] && scorecard.id == old(store.nextId)
      ensures GetAllScorecards(game) == Ok([scorecard])
    {
      store.SaveScorecard(scorecard);
      GetAllScorecardsIsTheScorecard(game, scorecard);
      return Ok(scorecard);
    }

    /** createScorecard, the bindings: binds the scorecard to the game, every section to the
        scorecard and, in list order, every field section's weight to that
        section; `bound` is false when a field section without a weight
        stopped the last step. */
    method BindReferences(game: Game, scorecard: Scorecard) returns (bound: bool)
      modifies scorecard`game
      modifies FieldSectionsIn(scorecard.sections)`scorecard, OtherSectionsIn(scorecard.sections)`scorecard
      modifies FieldWeightsIn(scorecard.sections)`field
      ensures scorecard.game == game
      ensures forall j :: 0 <= j < |scorecard.sections| ==> ((scorecard.sections[j].FieldSec? ==> scorecard.sections[j].field.scorecard == scorecard) && (scorecard.sections[j].OtherSec? ==> scorecard.sections[j].other.scorecard == scorecard))
      ensures forall w :: w in FieldWeightsIn(scorecard.sections) ==>
        w.field == (var last := LastWithWeight(scorecard.sections[..NullWeightIndex(scorecard.sections)], w);
                    if last != null then last else old(w.field))
      ensures bound <==> NullWeightIndex(scorecard.sections) == |scorecard.sections|
    {
      scorecard.game := game;
      var sections := scorecard.sections;
      BindSections(sections, scorecard);
      bound := BindWeights(sections);
    }

    /** createScorecard, the section step: every section's scorecard becomes `scorecard`. */
    method BindSections(sections: seq<ScorecardSection>, scorecard: Scorecard)
      modifies FieldSectionsIn(sections)`scorecard, OtherSectionsIn(sections)`scorecard
      ensures forall j :: 0 <= j < |sections| ==> ((sections[j].FieldSec? ==> sections[j].field.scorecard == scorecard) && (sections[j].OtherSec? ==> sections[j].other.scorecard == scorecard))
    {
      var i := 0;
      while i < |sections|
        invariant 0 <= i <= |sections|
        invariant forall j :: 0 <= j < i ==> ((sections[j].FieldSec? ==> sections[j].field.scorecard == scorecard) && (sections[j].OtherSec? ==> sections[j].other.scorecard == scorecard))
      {
        match sections[i] {
          case FieldSec(f) => f.scorecard := scorecard;
          case OtherSec(o) => o.scorecard := scorecard;
        }
        i := i + 1;
      }
    }

    /** createScorecard, the weight step: in list order, each field section's weight gets that
        section as its field; the first field section without a weight stops
        the loop, leaving the later weights as they were. */
    method BindWeights(sections: seq<ScorecardSection>) returns (bound: bool)
      modifies FieldWeightsIn(sections)`field
      ensures bound <==> NullWeightIndex(sections) == |sections|
      ensures forall w :: w in FieldWeightsIn(sections) ==>
        w.field == (var last := LastWithWeight(sections[..NullWeightIndex(sections)], w);
                    if last != null then last else old(w.field))
    {
      var i := 0;
      while i < |sections|
        invariant 0 <= i <= NullWeightIndex(sections)
        invariant forall w :: w in FieldWeightsIn(sections) ==>
          w.field == (var last := LastWithWeight(sections[..i], w); if last != null then last else old(w.field))
      {
        assert sections[..i + 1][..i] == sections[..i];
        if sections[i].FieldSec? {
          var f := sections[i].field;
          if f.weight == null {
            return false;
          }
          f.weight.field := f;
        }
        i := i + 1;
      }
      assert sections[..i] == sections;
      return true;
    }
  }
}
