# Cubscout server: result submission and scorecard creation

This project models the scorekeeping core of the cubscout server, a REST
service that collects FIRST Robotics scouting data. It covers two request
handlers and the entities they change in place.

- **Result submission** (`POST /matches/{match}/results`, `MatchController.createResult`):
  - the submitted result's scorecard is resolved by id;
  - the match is bound to the result;
  - scores whose value is null are pruned from the result's list (a null entry in the list is a null dereference);
  - the submitted robot is reconciled against the stored robots, and a new one may be saved with a team looked up by (robot number, game type);
  - three checks run in a fixed order, and the first failure names the error;
  - the result is saved once, under the storage layer's unique (match, robot) constraint.
- **Scorecard creation** (`POST /games/{game}/scorecards`, `GameController.createScorecard`):
  - a game may have only one scorecard;
  - the new scorecard is bound to the game, every section to the scorecard, and every field section's weight back to its field section, in list order;
  - the scorecard is then saved.
- **Around them:**
  - `updateMatch`, which copies only the match number;
  - `updateGame`, which copies name, year and type;
  - `createEvent`, which binds the game and replaces a submitted district by the stored district with the same code;
  - `getAllScorecards`, which returns an empty or a one-element list.

Modules:

- `Outcomes` defines the named error kinds (one per exception the controllers raise) and the outcome of a request.
- `Model` defines the entity classes. `Robot`, `Match`, `Result` and `FieldSection` follow their Java classes field by field, with field-granular `modifies` frames on the setters. The other entities keep only the fields the controllers touch.
- `Repositories` models the Spring Data repositories as one `Store` class:
  - each table is a sequence of saved entities, and saving appends;
  - the ids of robots, results, scorecards and events come from one shared counter;
  - lookups are recursive search functions;
  - `Store.Valid` is the storage invariant:
    - robot, scorecard, event and result ids are distinct and below the next id;
    - one scorecard per game;
    - unique (match, robot) pairs among results;
    - each result row's robot and scorecard are in their tables (matches have no table here);
    - unique team (number, game type) keys and district codes, so that the single-result finders have one answer.
- `Submission` holds the value-level parts of result submission:
  - `NonNullScores` is the pruned list;
  - `FirstFailedCheck` is the order of the three checks.
- `MatchApi.MatchController` and `GameApi.GameController` are the two controllers as classes over a `Store`. Each request handler is a method, split into stage methods that follow the source's steps. `MatchController.Settled` states once how a submission ends after pruning: robot reconciliation, the checks and the save. `CreateResult`, `AttachAndSubmit` and `Submit` each ensure it over the state they started from.

The three checks `scoresMatchScorecardSections`, `allMissingScoresAreOptional` and `gameMatchesScorecard` are called by the controller, but `Result.java` does not define them. They are parameters (`ResultChecks`): arbitrary predicates over the result's state when the checks run.

The model follows the code as written; four behaviours are worth knowing:

- **Field resolution never runs.**
  - `MatchController.java:113-122` builds a stream of two `peek` stages and closes it without a terminal operation, so no score's field is looked up and `ScoresDoNotExist` is never raised.
  - `CreateResult` therefore proves `outcome != Err(ScoresDoNotExist)` and leaves every score entry unchanged.
  - The lookup the stream would perform is modelled on its own as `ResolveScoreFields`. Like line 116, it looks sections up by the score entry's own id.
- **Robot matching uses the surrogate id only.** Reconciliation finds an existing robot by its id, not by (number, game type). A robot submitted twice without a known id is saved twice.
- **Submission is not atomic.** `createResult` has no transaction, so a robot saved by reconciliation stays saved when a later check fails. `CreateResult` states this outright.
- **Scorecard creation mutates before it can fail.** It binds references in memory before a field section without a weight can stop it with a null dereference. The store is unchanged on that path, but the bindings already made stay in place.

## Model

| member | source | states |
|---|---|---|
| Model.Robot.constructor | src/main/java/com/robocubs4205/cubscout/model/Robot.java:15-35 | a new robot has id 0, no team, number and year 0, no name, no game and an empty set of matches |
| Model.Robot.WithId | src/main/java/com/robocubs4205/cubscout/model/Robot.java:37-39 | `Robot(id)` has that id and every other field at its default |
| Model.Robot.SetId | src/main/java/com/robocubs4205/cubscout/model/Robot.java:41-47 | `getId` returns the id last set; nothing else changes |
| Model.Robot.SetTeam | src/main/java/com/robocubs4205/cubscout/model/Robot.java:69-71 | only `team` changes, to the given team |
| Model.Robot.SetNumber | src/main/java/com/robocubs4205/cubscout/model/Robot.java:61-63 | only `number` changes |
| Model.Robot.SetYear | src/main/java/com/robocubs4205/cubscout/model/Robot.java:81-83 | only `year` changes |
| Model.Robot.SetName | src/main/java/com/robocubs4205/cubscout/model/Robot.java:53-55 | only `name` changes |
| Model.Robot.SetGame | src/main/java/com/robocubs4205/cubscout/model/Robot.java:89-91 | only `game` changes |
| Model.Match.constructor | rest/src/main/java/com/robocubs4205/cubscout/model/Match.java:14-29 | a new match has empty `robots` and `results` sets, no event, number 0 and no type, so it passes neither the Default nor the Creating validation group |
| Model.Match.ValidDefault | rest/src/main/java/com/robocubs4205/cubscout/model/Match.java:16-27 | the Default group (event and type present) implies the Creating group (type present), whose only constraint here is the type |
| Model.Match.SetEvent | rest/src/main/java/com/robocubs4205/cubscout/model/Match.java:40-46 | `getEvent` returns what `setEvent` stored; only `event` changes |
| Model.Match.SetNumber | rest/src/main/java/com/robocubs4205/cubscout/model/Match.java:56-58 | only `number` changes |
| Model.Match.SetType | rest/src/main/java/com/robocubs4205/cubscout/model/Match.java:64-66 | only `type` changes |
| Model.FieldSection.constructor | src/main/java/com/robocubs4205/cubscout/model/scorecard/FieldSection.java:15-30 | a new field section is not optional, has no type, name, nullWhen or check-box message, and so is not valid (type and name are required) |
| Model.FieldSection.SetOptional | src/main/java/com/robocubs4205/cubscout/model/scorecard/FieldSection.java:56-62 | `isOptional()` returns the value set; no other field changes |
| Model.FieldSection.SetType | src/main/java/com/robocubs4205/cubscout/model/scorecard/FieldSection.java:36-38 | only `type` changes, to COUNT, RATING or absent |
| Model.FieldSection.SetName | src/main/java/com/robocubs4205/cubscout/model/scorecard/FieldSection.java:68-70 | only `name` changes |
| Model.FieldSection.SetNullWhen | src/main/java/com/robocubs4205/cubscout/model/scorecard/FieldSection.java:44-46 | only `nullWhen` changes, to CHECKED, UNCHECKED or absent |
| Model.FieldSection.SetCheckBoxMessage | src/main/java/com/robocubs4205/cubscout/model/scorecard/FieldSection.java:52-54 | only the check-box message changes |
| Model.Result.constructor | src/main/java/com/robocubs4205/cubscout/model/scorecard/Result.java:17-38 | a new result has id 0, no match, robot or scorecard, and no scores list; it passes neither the creation validation nor the persistence constraints |
| Model.Result.Persistable | src/main/java/com/robocubs4205/cubscout/model/scorecard/Result.java:21-32 | a result whose three non-optional columns are set also passes the Creating validation group |
| Model.Result.SetId | src/main/java/com/robocubs4205/cubscout/model/scorecard/Result.java:56-62 | `getId` returns the id last set; nothing else changes |
| Model.Result.SetMatch | src/main/java/com/robocubs4205/cubscout/model/scorecard/Result.java:44-46 | only `match` changes |
| Model.Result.SetRobot | src/main/java/com/robocubs4205/cubscout/model/scorecard/Result.java:52-54 | only `robot` changes |
| Model.Result.SetScores | src/main/java/com/robocubs4205/cubscout/model/scorecard/Result.java:68-70 | only `scores` changes |
| Model.Result.SetScorecard | src/main/java/com/robocubs4205/cubscout/model/scorecard/Result.java:76-78 | only `scorecard` changes |
| Repositories.RobotWithId | src/main/java/com/robocubs4205/cubscout/rest/MatchController.java:99-100 | the result is a stored robot with that id, and it is null exactly when no stored robot has that id |
| Repositories.ScorecardWithId | src/main/java/com/robocubs4205/cubscout/rest/MatchController.java:85-86 | the result is a stored scorecard with that id, and it is null exactly when no stored scorecard has it |
| Repositories.ScorecardForGame | src/main/java/com/robocubs4205/cubscout/rest/v1/GameController.java:117-130 | `game.getScorecard()`: a stored scorecard of that game, null exactly when the game has none |
| Repositories.TeamWith | src/main/java/com/robocubs4205/cubscout/rest/MatchController.java:102-105 | a stored team with that number and game type, null exactly when there is none |
| Repositories.DistrictWithCode | src/main/java/com/robocubs4205/cubscout/rest/v1/GameController.java:104-105 | a stored district with that code, null exactly when there is none |
| Repositories.TeamWithFindsEachTeam | src/main/java/com/robocubs4205/cubscout/rest/MatchController.java:102-105 | with unique (number, game type) keys, the lookup by a stored team's key returns that team |
| Repositories.DistrictWithCodeFindsEachDistrict | src/main/java/com/robocubs4205/cubscout/rest/v1/GameController.java:104-105 | with unique codes, the lookup by a stored district's code returns that district |
| Repositories.FieldSectionWith | src/main/java/com/robocubs4205/cubscout/rest/MatchController.java:115-117 | a stored field section with that id belonging to that scorecard, null exactly when there is none |
| Repositories.Store.constructor | src/main/java/com/robocubs4205/cubscout/rest/MatchController.java:27-40 | the repositories the controllers are given: teams, districts and field sections as provided, every other table empty, the first id 1, and the storage invariant holding |
| Repositories.Store.SaveRobot | src/main/java/com/robocubs4205/cubscout/rest/MatchController.java:107 | a robot not yet stored gets a fresh id and is appended to the robot table; the store stays valid |
| Repositories.Store.SaveResult | src/main/java/com/robocubs4205/cubscout/model/scorecard/Result.java:15-32 | the row is saved, with a fresh id, exactly when no stored result has the same (match, robot) pair; otherwise nothing changes; the store stays valid |
| Repositories.Store.SaveScorecard | src/main/java/com/robocubs4205/cubscout/rest/v1/GameController.java:136 | a scorecard for a game without one gets a fresh id and is appended; one scorecard per game still holds |
| Repositories.Store.SaveEvent | src/main/java/com/robocubs4205/cubscout/rest/v1/GameController.java:109 | an event not yet stored gets the next id and is appended to the event table; the store stays valid |
| Submission.NonNullScores | src/main/java/com/robocubs4205/cubscout/rest/MatchController.java:94-96 | the pruned list is no longer than the input and holds no null score |
| Submission.NonNullScoresMembers | src/main/java/com/robocubs4205/cubscout/rest/MatchController.java:94-96 | an entry survives pruning if and only if it was submitted and its score is not null |
| Submission.NonNullScoresSubMultiset | src/main/java/com/robocubs4205/cubscout/rest/MatchController.java:94-96 | pruning only removes entries: the result is a sub-multiset of the input |
| Submission.NonNullScoresConcat | src/main/java/com/robocubs4205/cubscout/rest/MatchController.java:94-96 | pruning distributes over concatenation, so the kept entries stay in their original relative order |
| Submission.NonNullScoresSnoc | src/main/java/com/robocubs4205/cubscout/rest/MatchController.java:94-96 | extending the list by one entry extends the pruned list by that entry exactly when its score is not null |
| Submission.NonNullScoresKeepsScored | src/main/java/com/robocubs4205/cubscout/rest/MatchController.java:94-96 | a list without null scores is left as it is |
| Submission.NonNullScoresIdempotent | src/main/java/com/robocubs4205/cubscout/rest/MatchController.java:94-96 | pruning twice is pruning once |
| Submission.NonNullScoresKeepsAllIff | src/main/java/com/robocubs4205/cubscout/rest/MatchController.java:94-96 | pruning changes nothing if and only if no score is null |
| Submission.FirstFailedCheck | src/main/java/com/robocubs4205/cubscout/rest/MatchController.java:125-135 | no error exactly when all three checks pass; otherwise the error of the first failing check, in the order scores-match-sections, required-scores-present, game-matches-scorecard |
| MatchApi.MatchController.UpdateMatch | src/main/java/com/robocubs4205/cubscout/rest/MatchController.java:55-61 | a missing match is not found; otherwise only the number is copied from the body, and event, type, robots and results are unchanged |
| MatchApi.MatchController.ResolveScorecard | src/main/java/com/robocubs4205/cubscout/rest/MatchController.java:85-89 | the result's scorecard becomes the stored scorecard with the submitted id, or null, and `found` says which |
| MatchApi.MatchController.RemoveNullScores | src/main/java/com/robocubs4205/cubscout/rest/MatchController.java:94-96 | a null entry in the list stops the request with the list as it was; otherwise the list becomes exactly its entries with a non-null score, in their original order |
| MatchApi.MatchController.ReconcileRobot | src/main/java/com/robocubs4205/cubscout/rest/MatchController.java:99-108 | a stored robot with the submitted id replaces the result's robot and nothing is saved; otherwise the submitted robot gets the team found by (number, scorecard's game type) if there is one, keeps its team if not, and is saved exactly once with a fresh id |
| MatchApi.MatchController.CreateResult | src/main/java/com/robocubs4205/cubscout/rest/MatchController.java:79-139 | no match: not found, and nothing changes. Unknown scorecard: ScorecardDoesNotExist before the match is bound, scores pruned or any robot saved. Missing scores list, or a null entry in it: a null dereference with the match bound and nothing else changed. Otherwise: pruning, then reconciliation, in which a stored robot with the submitted id replaces the submitted robot and leaves its team and id as they were; a new robot stays saved whatever follows and takes the next id; the first failing check names the error and leaves the result's id as it was; the result is saved exactly once, under the next id, only if all checks pass and its (match, robot) pair is new, else Conflict; a new robot never meets Conflict; ScoresDoNotExist never occurs; no score entry changes; the store stays valid |
| MatchApi.MatchController.AttachAndSubmit | src/main/java/com/robocubs4205/cubscout/rest/MatchController.java:91-137 | the match is bound; a missing scores list or a null entry in it is a null dereference with nothing saved; otherwise the effects of pruning, reconciliation, the checks and the save, with the ids they draw, as for CreateResult |
| MatchApi.MatchController.Submit | src/main/java/com/robocubs4205/cubscout/rest/MatchController.java:99-137 | reconciliation, then the first failing check or the single save, with the result's id and the id counter stated on every path; the scores are untouched; the only errors are the three check errors and Conflict |
| MatchApi.MatchController.CheckAndSave | src/main/java/com/robocubs4205/cubscout/rest/MatchController.java:125-137 | the first failing check names the error and nothing changes; if all pass, the result is saved under the next id exactly when its (match, robot) pair is new, otherwise Conflict with nothing changed |
| MatchApi.MatchController.ResolveScoreFields | src/main/java/com/robocubs4205/cubscout/rest/MatchController.java:113-122 | the lookup the stream describes: no error exactly when every entry's id names a field section of the scorecard, and then every entry's field is that section; otherwise ScoresDoNotExist; an entry's field is only ever replaced by its lookup |
| GameApi.NullWeightIndex | src/main/java/com/robocubs4205/cubscout/rest/v1/GameController.java:133-135 | the position of the first field section without a weight (or the list's length): every field section before it has a weight |
| GameApi.LastWithWeight | src/main/java/com/robocubs4205/cubscout/rest/v1/GameController.java:133-135 | a field section of the list holding that weight, null exactly when no field section holds it |
| GameApi.LastWithWeightIsOwner | src/main/java/com/robocubs4205/cubscout/rest/v1/GameController.java:133-135 | when no two field sections share a weight, each weight's field is set to the very section that holds it |
| GameApi.GameController.UpdateGame | src/main/java/com/robocubs4205/cubscout/rest/v1/GameController.java:67-77 | a missing game is not found; otherwise name, year and type are copied from the body and the id is kept |
| GameApi.GameController.CreateEvent | src/main/java/com/robocubs4205/cubscout/rest/v1/GameController.java:95-111 | a missing game is not found with nothing changed; otherwise the event's game is the path game; no district means no lookup and the event is saved under the next id; a district is replaced by the stored one with its code, and an unknown code is DistrictDoesNotExist with nothing saved and no id drawn; the store stays valid |
| GameApi.GameController.GetAllScorecards | src/main/java/com/robocubs4205/cubscout/rest/v1/GameController.java:113-120 | a missing game is not found; otherwise at most one scorecard, the list is empty exactly when no stored scorecard belongs to the game, and its element is a stored scorecard of the game |
| GameApi.GameController.GetAllScorecardsIsTheScorecard | src/main/java/com/robocubs4205/cubscout/rest/v1/GameController.java:117-119 | in a valid store the list is exactly the game's scorecard |
| GameApi.GameController.CreateScorecard | src/main/java/com/robocubs4205/cubscout/rest/v1/GameController.java:122-139 | a missing game is not found and a game with a scorecard is GameAlreadyHasScorecard, and then the scorecard, its sections, their weights and the store are unchanged; otherwise the scorecard's game is the path game, every section's scorecard is the new scorecard, and every weight's field is the last field section holding it; a field section without a weight stops with a null dereference and nothing saved; otherwise the scorecard is saved and becomes the game's one scorecard |
| GameApi.GameController.BindAndSave | src/main/java/com/robocubs4205/cubscout/rest/v1/GameController.java:131-136 | the bindings as for CreateScorecard, then the save unless a field section has no weight; the store stays valid |
| GameApi.GameController.SaveBoundScorecard | src/main/java/com/robocubs4205/cubscout/rest/v1/GameController.java:136-138 | the bound scorecard is saved under the next id, the store stays valid, and listing the game's scorecards then gives exactly it |
| GameApi.GameController.BindReferences | src/main/java/com/robocubs4205/cubscout/rest/v1/GameController.java:131-135 | the scorecard is bound to the game, every section to the scorecard, and the weights in list order up to the first field section without one |
| GameApi.GameController.BindSections | src/main/java/com/robocubs4205/cubscout/rest/v1/GameController.java:132 | every section's scorecard back-reference is the given scorecard; only those back-references change |
| GameApi.GameController.BindWeights | src/main/java/com/robocubs4205/cubscout/rest/v1/GameController.java:133-135 | each weight's field is the last field section before the first weightless one that holds it; weights not reached keep their field; success exactly when no field section lacks a weight |

## Left out

- HTTP routing, response status codes, path-variable binding and the hypermedia resource assemblers. A request handler returns the entity it would render, or the error kind of the exception it would throw.
- JPA persistence: flushing, transactions and rollback, cascading, and `merge` semantics. Saving appends to a table. Saving a robot whose unknown id is not 0 is modelled as persisting a new robot with a fresh id. Saving a scorecard does not add its sections to the field-section table.
- Concurrency: two submissions racing on the (match, robot) constraint, or on robot creation. The model is one request at a time, and the constraint is checked at save.
- Id generation: one shared counter stands for the generated ids.
- The bodies of `scoresMatchScorecardSections`, `allMissingScoresAreOptional` and `gameMatchesScorecard`. They are not in `Result.java` and are parameters here.
- `Game`, `Team`, `District`, `Event`, `Scorecard`, `ScorecardSection`, `Weight` and `ScorecardFieldResult` are not part of this model beyond the fields the controllers read or write. In particular:
  - a section's weight is fixed at construction;
  - a score entry's id and score never change;
  - `Game.getScorecard()` is a query over the stored scorecards.
- Bean validation of request bodies other than `Result`: `@Valid` on a game and `@Validated` on an event or scorecard have no modelled effect. `@Validated(Result.Creating)` becomes the precondition that the submitted robot and scorecard are present.
- A null element in a scorecard's section list (`GameController.java:132`): sections are a datatype of non-null field and other sections here, so that null dereference is not modelled. Null score entries of a result are modelled.
- `Game`, `Event`, `Weight`, `OtherSection` and `Scorecard` constructors only give their fields; they stand for the objects a request body deserialises into.
- The meaning of `nullWhen` and the check-box message: no code in this core reads them.
- The read-only and delete endpoints of both controllers (`getAllMatches`, `getMatch`, `deleteMatch`, `getAllRobots`, `getAllResults`, `getAllGames`, `getGame`, `createGame`, `deleteGame`, `getAllEvents`).
- Java's 64-bit `long` ids and 32-bit `int` numbers: ids and numbers are unbounded integers, and no arithmetic is done on them besides drawing the next id.
