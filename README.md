# Tournament team formation and scoring, modelled in Dafny

This project models the core of the ACS backend: the Express handlers that form balanced
teams for a tournament, record round scores against the players, finish, edit and delete
tournaments, adjust and edit players, and compute the global ranking. It proves properties
of that model.

Each handler keeps its shape:

- **Parsing**: the team-count parse (`!n || isNaN(n) ? 2 : parseInt(n, 10)`) is a function
  over a small datatype. The datatype lists the kinds of value a client can send. A JSON
  number is a mantissa and a decimal exponent, because parseInt reads the number's printed
  form: 1e-7 prints in exponent notation and parses to 1.
- **Tiers**: tier grouping is a method with a loop that builds the tier map, as the
  `forEach` does. Tier sorting is a method that lists the distinct tiers in ascending order.
  Both are specified by functions (`IdsWithTier`, `SortedTiers`).
- **Balancer**: the dealing loop nest (`while` / `for` teams / high scan / low scan) is the
  method `Balancer.Balance`. It keeps local copies of the queues and the teams.
  - It is proved equal to a functional reference: `HighPick`, `LowPick`, `Turn`, `PassFrom`
    and `Rounds` over a `Deal` state.
  - The properties are proved about that reference: termination for N ≥ 1, the size cap, a
    permutation of the roster, and the exact draw order on concrete scenarios.
- **Scores**: score recording is a left fold of `ApplyEntry` over the request's entries. It
  has a closed form: each player's new score is its old score plus the sum of the entries
  whose matched team contains it.
- **TeamEditor**: team editing normalises `p._id || p`.
- **Results**: the winning score of finished tournaments.
- **Ranking**: the ranking aggregation (`$group` by name, `$sum`, `$addToSet`, `$size`,
  `$sort`) is a pure pipeline over the player collection. Its sort is an insertion sort.
- **Store**: the class `Store.Store` holds the two collections as maps from id to document.
  Each handler is a method that returns an `Outcome`: `Ok`, or `Err(BadRequest | NotFound |
  ServerError)` for HTTP 400/404/500. Each method states the complete new state for every
  path.

Behaviour of the code worth knowing:

- **Team sizes are not kept within one of each other.** With six players in two tiers of
  three dealt to four teams, the sizes are 2, 2, 2 and 0 (`Balancer.UnevenTeamSizes`). Only
  the cap ceil(T/N) is guaranteed.
- **Finished tournaments are not protected everywhere.** Generate-teams, update-teams,
  record-scores and finish do not check `isFinished`. Only update and delete refuse a
  finished tournament.
- **Record-scores does not require any teams.** With no teams, every entry is skipped.
- **A player registered twice is dealt twice.** The roster has one entry per registration
  (`Store.PopulateAllRegistered`), and the teams are a permutation of the registered ids as a
  multiset, not of a set of players (`Store.GeneratedFromRegistered`).
- **The ranking groups players by display name,** as the code does.

## Model

| member | source | states |
|---|---|---|
| Parsing.Truncate | acs-backend/routes/tournamentRoutes.js:63 | parseInt of a plain decimal number truncates toward zero: the result is the integer between 0 and the value that is less than one away from it |
| Parsing.TeamCount | acs-backend/routes/tournamentRoutes.js:60-64 | a falsy or NaN input gives 2; numeric text gives its truncation (so "0" gives 0 while 0 gives 2); a non-zero number gives its truncation when it prints in plain notation, and its leading digit, with its sign, when it prints in exponent notation |
| Parsing.TeamCountBelowOne | acs-backend/routes/tournamentRoutes.js:60-64 | the parsed count is below 1 exactly when the input is numeric text below 1, or a non-zero number below 1 that is not a positive number printed in exponent notation (1e-7 gives 1); these are the inputs for which the dealing loop cannot finish |
| Parsing.ExponentFormCounts | acs-backend/routes/tournamentRoutes.js:60-64 | 1e-7 and 1e21 parse to one team, 0.5 to none, 25.5 to 25 |
| Tiers.GroupByTier | acs-backend/routes/tournamentRoutes.js:75-79 | the tier map has one key per tier present; each entry is non-empty and holds exactly that tier's player ids, in roster order |
| Tiers.SortTiers | acs-backend/routes/tournamentRoutes.js:96 | the keys are listed in strictly ascending numeric order, each exactly once |
| Tiers.SortedExists | acs-backend/routes/tournamentRoutes.js:96 | every finite set of tiers has an ascending listing |
| Tiers.SortedUnique | acs-backend/routes/tournamentRoutes.js:96 | two strictly ascending listings of the same tiers are equal, so the sorted tier list is determined by the roster |
| Tiers.SortedTiers | acs-backend/routes/tournamentRoutes.js:96 | the ascending listing of a set of tiers |
| Tiers.Column | acs-backend/routes/tournamentRoutes.js:75-79 | the k-th queue is the ids of the k-th listed tier's players, in roster order |
| Tiers.ColumnIsPermutation | acs-backend/routes/tournamentRoutes.js:75-79 | the tier queues together hold exactly the roster's ids, with multiplicity, when the listed tiers are distinct and cover the roster |
| Tiers.IdsWithTier | acs-backend/routes/tournamentRoutes.js:75-79 | the ids of the players of one tier, in roster order; GroupByTier states that the tier map holds exactly these |
| Tiers.TiersOf | acs-backend/routes/tournamentRoutes.js:75-79 | the tiers present in the roster; GroupByTier states that they are the tier map's keys |
| Balancer.Cap | acs-backend/routes/tournamentRoutes.js:93 | Math.ceil(T / N) for N ≥ 1: the least c with N·c ≥ T |
| Balancer.ScanHigh | acs-backend/routes/tournamentRoutes.js:105-107 | the first non-empty queue among the high tiers (index t with t < L/2), scanning upward, or -1 when all are empty |
| Balancer.ScanLow | acs-backend/routes/tournamentRoutes.js:117-119 | the first non-empty queue among the low tiers (t ≥ L/2), scanning downward, or -1 when all are empty |
| Balancer.Move | acs-backend/routes/tournamentRoutes.js:109-110 | shift() from queue k and push() onto team i: team i gains exactly the front of queue k, queue k loses exactly its front, every other team and queue is unchanged, one more player placed |
| Balancer.MoveKeepsPlayers | acs-backend/routes/tournamentRoutes.js:109-110 | a move loses and creates no player: the queued and placed players together are the same multiset, one fewer queued and one more placed |
| Balancer.HighPick | acs-backend/routes/tournamentRoutes.js:105-114 | team i receives the front of the first non-empty high queue exactly when it is below the cap and such a queue exists, and that queue loses its front while the others stay; otherwise nothing changes |
| Balancer.LowPick | acs-backend/routes/tournamentRoutes.js:117-126 | the same for the low tiers, scanned from the weakest tier upward: the chosen queue loses its front and the others stay |
| Balancer.Turn | acs-backend/routes/tournamentRoutes.js:104-126 | a turn places 0 to 2 players and loses none: the counters move with the contents and the players are the same multiset |
| Balancer.TurnWithinCap | acs-backend/routes/tournamentRoutes.js:108-121 | a turn keeps every team within the cap |
| Balancer.TurnStuck | acs-backend/routes/tournamentRoutes.js:104-126 | a turn that places nobody changes nothing, and happens only when the team is full or every queue is empty |
| Balancer.PassFrom | acs-backend/routes/tournamentRoutes.js:101-127 | the turns of teams i..N-1, stopping once all are placed: the players are preserved, and the counts and the cap stay consistent |
| Balancer.PassFromProgress | acs-backend/routes/tournamentRoutes.js:101-127 | while players remain, a pass places someone unless every remaining team is full |
| Balancer.PassProgress | acs-backend/routes/tournamentRoutes.js:100-128 | since N·ceil(T/N) ≥ T, every pass of the while loop places at least one player, so the loop terminates for N ≥ 1 |
| Balancer.Rounds | acs-backend/routes/tournamentRoutes.js:100-128 | repeating passes places all T players, empties every queue, keeps every team within the cap and loses no player |
| Balancer.EmptyTeams | acs-backend/routes/tournamentRoutes.js:90 | N empty teams |
| Balancer.DrawHigh | acs-backend/routes/tournamentRoutes.js:105-114 | the high-tier loop computes HighPick |
| Balancer.DrawLow | acs-backend/routes/tournamentRoutes.js:117-126 | the low-tier loop computes LowPick |
| Balancer.DealPass | acs-backend/routes/tournamentRoutes.js:101-127 | the for-teams loop, with its early break, computes one pass |
| Balancer.Balance | acs-backend/routes/tournamentRoutes.js:89-128 | the loop nest yields the functional reference's teams: exactly N teams, none above ceil(T/N), together a permutation of the queued players |
| Balancer.NumberTeams | acs-backend/routes/tournamentRoutes.js:131-134 | the i-th list becomes team number i+1 with those members |
| Balancer.UnevenTeamSizes | acs-backend/routes/tournamentRoutes.js:93-128 | six players in two tiers of three, dealt to four teams with the cap ceil(6/4) = 2 the handler computes, give [[a,x],[b,y],[c,z],[]]: sizes 2, 2, 2 and 0 |
| Balancer.SevenCap | acs-backend/routes/tournamentRoutes.js:93 | ceil(7/2) = 4 |
| Balancer.SevenPlayersTwoTeams | acs-backend/routes/tournamentRoutes.js:93-128 | tiers of 2, 1, 2 and 2 players dealt to two teams, with the cap ceil(7/2) = 4 the handler computes, give [[a,f,c,d],[b,g,e]]: sizes 4 and 3; in the last turn the high scan finds nothing and team 2 takes only a low pick |
| Store.PopulateMembers | acs-backend/routes/tournamentRoutes.js:67-71 | each populated player is the document of a registered id, each registered id with a document is populated, and the roster is empty exactly when no registered id has a document |
| Store.Populate | acs-backend/routes/tournamentRoutes.js:67 | `.populate("players")`: the registered ids that have a player document, in order, never more than registered; PopulateMembers, PopulateConcat and PopulateAllRegistered state which players, in which order and how often |
| Store.PopulateConcat | acs-backend/routes/tournamentRoutes.js:67 | populating a + b is populating a followed by populating b: each registered id is resolved on its own, in registration order |
| Store.PopulateAllRegistered | acs-backend/routes/tournamentRoutes.js:67 | when every registered id has a document, the roster has one entry per registered id, the i-th being the document of the i-th id, so an id registered twice is populated twice |
| Store.RegisteredIds | acs-backend/routes/tournamentRoutes.js:67 | in a store keyed by id where every registered id has a document, the roster's ids are exactly the registered ids, in order |
| Store.GeneratedFromRegistered | acs-backend/routes/tournamentRoutes.js:67-134 | in such a store, the generated teams hold exactly the registered ids, each as often as it is registered |
| Store.TierQueuesArePlayers | acs-backend/routes/tournamentRoutes.js:75-96 | the tier queues in ascending tier order hold exactly the roster's ids, one entry per rostered player |
| Store.TierQueues | acs-backend/routes/tournamentRoutes.js:75-96 | the tier queues of the roster, in ascending tier order, holding one entry per rostered player; TierQueuesArePlayers states that they hold exactly its ids |
| Balancer.Dealt | acs-backend/routes/tournamentRoutes.js:89-128 | the member lists after dealing T queued players into N teams with cap ceil(T/N); Rounds and Balance state their properties |
| Store.GeneratedTeams | acs-backend/routes/tournamentRoutes.js:74-134 | the teams generate-teams stores: the dealt lists numbered 1..N; GeneratedTeamsShape and GeneratedWinners state their properties |
| Store.GeneratedTeamsShape | acs-backend/routes/tournamentRoutes.js:89-134 | the generated teams are N teams numbered 1..N, each within ceil(T/N), together holding every rostered player exactly as often as rostered |
| Store.Generate | acs-backend/routes/tournamentRoutes.js:74-134 | grouping, sorting, dealing and numbering yield the generated teams |
| Store.NumberedTeamsFound | acs-backend/routes/tournamentRoutes.js:131-134 | a numbered team list finds number k at index k-1 for 1 ≤ k ≤ N and finds no other number |
| Store.GeneratedWinners | acs-backend/routes/tournamentRoutes.js:236-238 | after generation, finish accepts a winner exactly when it is one of 1..N |
| Store.TeamSlots | acs-backend/routes/tournamentRoutes.js:90 | the length of `Array.from({ length: n })`: n itself for n ≥ 0, and 0 exactly when n is below 1 |
| Store.CountBelowOneSpins | acs-backend/routes/tournamentRoutes.js:90-128 | as written, a parsed count below 1 gives no teams, and a pass of the dealing loop over no teams changes nothing, so the `while` loop never ends once there is a player to deal |
| Store.Store.GenerateTeams | acs-backend/routes/tournamentRoutes.js:55-152 | 404 for an unknown tournament and 400 for an empty populated roster, both with nothing changed; 400 with nothing changed for a parsed count below 1 (the corrected behaviour, see Findings); 500 with nothing changed when the parsed count is 2^32 or more, where Array.from throws; otherwise only that tournament's teams are replaced, by the generated teams for the parsed count; players are never touched |
| TeamEditor.NormalizeRef | acs-backend/routes/tournamentRoutes.js:170 | `p._id \|\| p`: an embedded document with an id becomes the id, a bare id stays, a document without an id is kept as it is |
| TeamEditor.NormalizeTeam | acs-backend/routes/tournamentRoutes.js:168-171 | one team with its number kept and every member normalised; NormalizeTeams states it |
| TeamEditor.NormalizeTeams | acs-backend/routes/tournamentRoutes.js:168-171 | same teams in the same order, numbers and member counts kept, every member normalised |
| TeamEditor.NormalizeIdempotent | acs-backend/routes/tournamentRoutes.js:168-171 | normalising twice is normalising once |
| TeamEditor.ToTeams | acs-backend/routes/tournamentRoutes.js:173-174 | the teams can be stored exactly when every member became an id; then numbers and members are kept |
| TeamEditor.UpdateTeamsRoundTrip | acs-backend/routes/tournamentRoutes.js:168-174 | sending back the populated teams unchanged stores exactly the teams that were shown |
| Store.Store.UpdateTeams | acs-backend/routes/tournamentRoutes.js:155-188 | 404 for an unknown tournament; 500 with nothing changed when a member cannot be stored as an id; otherwise only the tournament's teams are replaced by the normalised ones |
| Scores.FindTeamIndex | acs-backend/routes/tournamentRoutes.js:205 | Array.find by strict number equality: the first team with that number, or -1 exactly when none has it |
| Scores.Members | acs-backend/routes/tournamentRoutes.js:215 | the `$in` set of a team: exactly the ids in its member list, each once |
| Scores.Credit | acs-backend/routes/tournamentRoutes.js:209-217 | updateMany with $in and $inc: each stored member gains the score once, and every other player is unchanged |
| Scores.ApplyEntry | acs-backend/routes/tournamentRoutes.js:205-217 | one entry changes no player's existence |
| Scores.ApplyAll | acs-backend/routes/tournamentRoutes.js:203-218 | all entries in order change no player's existence |
| Scores.Gain | acs-backend/routes/tournamentRoutes.js:205-217 | what one entry adds to a player: its score when the player is in the team `find` returns, else 0; ApplyAllScores states the effect |
| Scores.Earned | acs-backend/routes/tournamentRoutes.js:203-218 | the sum of a player's gains over the entries; ApplyAllScores states that it is what recording adds to the player's score |
| Scores.ApplyAllScores | acs-backend/routes/tournamentRoutes.js:203-218 | only scores change, and each player's new score is the old one plus the sum of the scores of the entries whose matched team contains it |
| Scores.ApplyAllConcat | acs-backend/routes/tournamentRoutes.js:203-218 | recording a + b is recording a and then b |
| Scores.UnmatchedEntrySkipped | acs-backend/routes/tournamentRoutes.js:205-206 | an entry naming no team changes nothing |
| Scores.UntouchedPlayersUnchanged | acs-backend/routes/tournamentRoutes.js:209-217 | a player in none of the matched teams is unchanged |
| Scores.RepeatedEntryAccumulates | acs-backend/routes/tournamentRoutes.js:214-217 | the same entry twice adds twice its score: $inc accumulates and is not idempotent |
| Scores.TwoTeamsExample | acs-backend/routes/tournamentRoutes.js:203-218 | teams {1:[A,B]}, {2:[C,D]} with entries (1,+5), (2,-3) give A, B +5 and C, D -3 |
| Store.Store.RecordScores | acs-backend/routes/tournamentRoutes.js:191-225 | 404 for an unknown tournament with nothing changed; otherwise the loop leaves the players as the fold of all entries over the tournament's teams, and tournaments are never touched; players stay keyed by their ids |
| Store.HasTeam | acs-backend/routes/tournamentRoutes.js:236 | `teams.some(team => team.teamNumber === number)`: holds exactly when a number is given and `find` locates a team with it |
| Store.Store.Finish | acs-backend/routes/tournamentRoutes.js:228-249 | 404 for an unknown tournament; 400 with nothing changed unless some team has the winner's number (an absent number matches none); otherwise only isFinished and winnerTeamNumber of that tournament change |
| Results.WinningTeam | acs-backend/routes/tournamentRoutes.js:262 | the team at the index `find` returns, so the first team whose number equals the winner number when several share it, or none when the number is absent or unmatched |
| Results.ReduceScores | acs-backend/routes/tournamentRoutes.js:266 | the reduce over the winning team's members; ReduceWithoutScores and ReduceAfterCredit state its properties |
| Results.ScoreOrZero | acs-backend/routes/tournamentRoutes.js:266 | `player.score \|\| 0` for one member document |
| Results.ReduceWithoutScores | acs-backend/routes/tournamentRoutes.js:266 | `reduce(sum + (score \|\| 0))` is 0 whenever no populated document carries a score |
| Results.NameOnly | acs-backend/routes/tournamentRoutes.js:255-258 | populate with the "name" projection yields one document per stored player, none with a score |
| Results.WithScore | acs-backend/routes/tournamentRoutes.js:266 | documents carrying each stored player's score |
| Results.WinningScoreAsWritten | acs-backend/routes/tournamentRoutes.js:255-267 | the winning score as the handler computes it, over the "name"-only documents; AsWrittenIsZero states that it is always 0 |
| Results.AsWrittenIsZero | acs-backend/routes/tournamentRoutes.js:255-267 | the winning score as written is 0 for every tournament and every store |
| Results.WinningScore | acs-backend/routes/tournamentRoutes.js:261-267 | the intended winning score is 0 when there is no winning team |
| Results.ReduceAfterCredit | acs-backend/routes/tournamentRoutes.js:266 | crediting s to a team's members raises their summed score by s per stored member occurrence |
| Results.WinningScoreAfterCredit | acs-backend/routes/tournamentRoutes.js:261-267 | recording s for the winning team raises the intended winning score by s per stored member |
| Results.WinningScoreDiscrepancy | acs-backend/routes/tournamentRoutes.js:255-267 | one winning member with 5 points: the intended score is 5, the reported one is 0 |
| Store.Store.UpdateTournament | acs-backend/routes/tournamentRoutes.js:278-312 | 404 for an unknown tournament; 400 with nothing changed when it is finished; otherwise a non-empty name, a game and a player list (the empty list included) replace the stored ones when supplied, the modification time is set, and nothing else changes |
| Store.Store.DeleteTournament | acs-backend/routes/tournamentRoutes.js:316-339 | 404 for an unknown tournament; 400 with nothing changed when it is finished; otherwise exactly that tournament is removed |
| Ranking.Names | acs-backend/routes/playerRoutes.js:52-53 | the group keys: every player's name, each exactly once |
| Ranking.TotalScore | acs-backend/routes/playerRoutes.js:54 | `$sum: "$score"` over the players with one name; RankEntries states that each entry carries it |
| Ranking.Games | acs-backend/routes/playerRoutes.js:55 | $addToSet: exactly the game ids of the players with that name |
| Ranking.Group | acs-backend/routes/playerRoutes.js:50-63 | one group per distinct name |
| Ranking.GroupOf | acs-backend/routes/playerRoutes.js:50-63 | each group carries its name, the sum of its scores and the size of its game set |
| Ranking.Insert | acs-backend/routes/playerRoutes.js:65 | insertion keeps the other entries, adds the new one and adds its total to the sum |
| Ranking.InsertSorted | acs-backend/routes/playerRoutes.js:65 | insertion into a list sorted by descending total keeps it sorted |
| Ranking.InsertUnique | acs-backend/routes/playerRoutes.js:65 | inserting a new name keeps the names distinct |
| Ranking.SortByScore | acs-backend/routes/playerRoutes.js:65 | the sort is a permutation and keeps the sum of totals |
| Ranking.SortSorted | acs-backend/routes/playerRoutes.js:65 | the sorted list is non-increasing in totalScore |
| Ranking.SortUnique | acs-backend/routes/playerRoutes.js:65 | sorting keeps the names distinct |
| Ranking.Rank | acs-backend/routes/playerRoutes.js:50-66 | the whole pipeline: the groups sorted by descending total; RankOnePerName, RankEntries, RankSorted and RankSum state its properties |
| Ranking.RankOnePerName | acs-backend/routes/playerRoutes.js:50-66 | the ranking has exactly one entry per distinct player name, and no other |
| Ranking.RankEntries | acs-backend/routes/playerRoutes.js:50-66 | each entry's totalScore is the sum of the scores of the players with that name, and its gamesCount is the number of distinct games they play |
| Ranking.RankSorted | acs-backend/routes/playerRoutes.js:65 | the ranking is sorted by descending totalScore |
| Ranking.RankSum | acs-backend/routes/playerRoutes.js:50-66 | the totals of the ranking add up to the sum of all players' scores |
| Store.Store.UpdateScore | acs-backend/routes/playerRoutes.js:77-99 | 400 when the id or the adjustment is missing (0 is accepted), checked before the lookup; 404 for an unknown player; otherwise only that player's score grows by the adjustment; players stay keyed by their ids |
| Store.Store.UpdatePlayer | acs-backend/routes/playerRoutes.js:119-147 | 400 when neither a non-empty name nor a tier (0 included) is given; 404 for an unknown player; otherwise exactly the supplied fields of that player change; players stay keyed by their ids |

## Left out

- The shuffle of each tier queue (`arr.sort(() => Math.random() - 0.5)`) is left out because it depends on randomness. `Balancer.Balance` and the `Rounds` properties hold for any queue order. `Store.Generate` deals the queues in roster order, which is one possible outcome of the shuffle.
- HTTP, Express routing, response bodies and the populated copies returned to the client are left out. Only the status class (200, 400, 404, 500) and the stored state are modelled.
- The MongoDB/Mongoose persistence layer is not part of this model. Ids are integers, documents are map entries, and every write of a handler is applied atomically. The loop of `updateMany` calls in record-scores is not atomic in the source, and concurrent requests are not modelled.
- ObjectId cast errors for malformed ids (HTTP 500) are not modelled. The exception is a team member left as a document without `_id`, which update-teams turns into a 500.
- Store.Store.GenerateTeams: a team count below 1 makes the source loop forever once there are players to deal (see Findings). The model answers 400 there instead. `Parsing.TeamCountBelowOne` characterises those inputs. A count of 2^32 or more is modelled as the 500 it causes. Running out of memory on large counts below that is not modelled.
- Store.Store.RecordScores: a body without `teamScores` (or with a null entry) makes the `for…of` at line 203 throw a TypeError after the 404 check, and the handler answers 500. For a null entry, the entries before it have already been written. Request bodies are typed here, so this 500 is not modelled.
- Store.Store.UpdateTeams: a body without `teams`, or a team without `players`, makes the `map` calls at lines 168 and 170 throw, and the handler answers 500 with nothing saved. Request bodies are typed here, so this 500 is not modelled.
- The store's player map is taken as keyed by document id (`Store.Keyed`). The constructor requires it, and the handlers that write players keep it.
- Parsing.TeamCount: JavaScript coercions outside the listed input kinds are not modelled. These include strings with leading or trailing blanks, strings in exponent or hexadecimal notation, Infinity, booleans and arrays.
- Parsing.TeamCount: a string with no digit before its point (".5") parses to NaN in the source. Like a count below 1, that makes the dealing loop run forever. Such strings are not among the modelled inputs.
- Parsing.TeamCount: a JSON number is taken as the exact decimal mantissa * 10^exponent that String(v) prints. Binary floating-point rounding is not modelled.
- Tier values are integers. String tiers and a player without a tier (the `"undefined"` key) are not modelled.
- Ranking.SortByScore: `$sort` leaves ties in an unspecified order. The model fixes one order, insertion before the first lower total, and the contracts say nothing about ties. The player collection is taken as a sequence in natural order, and floating-point scores are modelled as integers.
- Store.Store.UpdatePlayer: Mongoose schema validators (`runValidators`) are not part of this model.
- Store.Store.UpdateScore: a non-numeric adjustment (JavaScript string concatenation on `+=`) is not modelled.
- The team-number comparisons in record-scores and finish use `===`, so a number sent as a string matches no team. Team numbers are integers here.
- Create, list, register-players, the player read routes and gameRoutes.js are outside this model.

## Findings

| source | as written | input that shows it | evidently intended | confidence | as-written member | corrected member |
|---|---|---|---|---|---|---|
| acs-backend/routes/tournamentRoutes.js:256-266 | the finished-tournaments query populates team members with the "name" projection only, so `player.score \|\| 0` is always 0 and `winningScore` is always 0 | a finished tournament whose winning team 1 has one member with score 5 | the sum of the winning team members' stored scores (5) | high, not executed | Results.WinningScoreAsWritten | Results.WinningScore |
| acs-backend/routes/tournamentRoutes.js:60-128 | a parsed team count below 1 builds no teams, so the `for` over the teams never deals and `while (distributedCount < totalPlayers)` spins forever; the loop is synchronous, so it blocks Node's event loop and the whole server stops answering | `numberOfTeams: 0.5` (or -3, or "0") for a tournament with one registered player | the request refused with a 400 and nothing saved | high, not executed | Store.CountBelowOneSpins | Store.Store.GenerateTeams |
