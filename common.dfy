/** Entities shared by the tournament and player handlers. */
module Common {
  type PlayerId = int
  type GameId = int
  type TournamentId = int

  datatype Option<T> = None | Some(value: T)

  /** The failure classes the handlers answer with (HTTP 400, 404 and 500). */
  datatype Error = BadRequest | NotFound | ServerError

  datatype Outcome = Ok | Err(error: Error)

  /** A player document: display name, skill tier (lower is stronger), cumulative score, game. */
  datatype Player = Player(id: PlayerId, name: string, tier: int, score: int, gameId: GameId)

  /** A team inside a tournament: its number and the ids of its members, in order. */
  datatype Team = Team(teamNumber: int, players: seq<PlayerId>)

  /** A tournament document. `winnerTeamNumber` is absent until the tournament is finished. */
  datatype Tournament = Tournament(
    name: string,
    gameId: GameId,
    players: seq<PlayerId>,
    teams: seq<Team>,
    isFinished: bool,
    winnerTeamNumber: Option<int>,
    updatedAt: int)

  /** The ids of a sequence of players, in order. */
  function Ids(ps: seq<Player>): (r: seq<PlayerId>)
    ensures |r| == |ps| && forall i :: 0 <= i < |ps| ==> r[i] == ps[i].id
  {
    if ps == [] then [] else Ids(ps[..|ps| - 1]) + [ps[|ps| - 1].id]
  }
}
