/**
 * Manual replacement of a tournament's teams (update-teams handler): every submitted player
 * entry becomes `p._id || p`.
 */
module TeamEditor {
  import opened Common

  /** A submitted team member: a bare id, or an embedded player document whose `_id` may be missing. */
  datatype PlayerRef = Id(id: PlayerId) | Doc(docId: Option<PlayerId>)

  datatype TeamInput = TeamInput(teamNumber: int, players: seq<PlayerRef>)

  /** `p._id || p`: a document with an id becomes that id; anything else is kept as it is. */
  function NormalizeRef(p: PlayerRef): (r: PlayerRef)
    ensures r.Id? <==> p.Id? || p.docId.Some?
    ensures r.Id? ==> r.id == (if p.Id? then p.id else p.docId.value)
    ensures r.Doc? ==> r == p
  {
    match p
    case Id(_) => p
    case Doc(Some(id)) => Id(id)
    case Doc(None) => p
  }

  function NormalizeTeam(t: TeamInput): TeamInput
  {
    TeamInput(t.teamNumber, seq(|t.players|, j requires 0 <= j < |t.players| => NormalizeRef(t.players[j])))
  }

  /**
   * The teams.map(...) of the handler: same number of teams in the same order, each with its
   * number and its member count kept, each member normalised.
   */
  function NormalizeTeams(teams: seq<TeamInput>): (r: seq<TeamInput>)
    ensures |r| == |teams|
    ensures forall i :: 0 <= i < |r| ==>
      r[i].teamNumber == teams[i].teamNumber && |r[i].players| == |teams[i].players| &&
      forall j :: 0 <= j < |r[i].players| ==> r[i].players[j] == NormalizeRef(teams[i].players[j])
  {
    seq(|teams|, i requires 0 <= i < |teams| => NormalizeTeam(teams[i]))
  }

  /** Normalising twice is normalising once. */
  lemma NormalizeIdempotent(teams: seq<TeamInput>)
    ensures NormalizeTeams(NormalizeTeams(teams)) == NormalizeTeams(teams)
  {
    var once := NormalizeTeams(teams);
    var twice := NormalizeTeams(once);
    forall i | 0 <= i < |teams|
      ensures twice[i] == once[i]
    {
      assert twice[i].players == once[i].players;
    }
  }

  /** The stored form: every entry must have become a bare id; otherwise there is none. */
  function ToTeams(teams: seq<TeamInput>): (r: Option<seq<Team>>)
    ensures r.Some? <==> forall i, j :: 0 <= i < |teams| && 0 <= j < |teams[i].players| ==> teams[i].players[j].Id?
    ensures r.Some? ==> |r.value| == |teams| && forall i :: 0 <= i < |teams| ==>
      r.value[i].teamNumber == teams[i].teamNumber && |r.value[i].players| == |teams[i].players| &&
      forall j :: 0 <= j < |teams[i].players| ==> Id(r.value[i].players[j]) == teams[i].players[j]
  {
    if forall i, j :: 0 <= i < |teams| && 0 <= j < |teams[i].players| ==> teams[i].players[j].Id? then
      Some(seq(|teams|, i requires 0 <= i < |teams| =>
        Team(teams[i].teamNumber, seq(|teams[i].players|, j requires 0 <= j < |teams[i].players| => teams[i].players[j].id))))
    else None
  }

  /** Teams as the populated response shows them: every member is a document carrying its id. */
  function AsDocuments(teams: seq<Team>): (r: seq<TeamInput>)
    ensures |r| == |teams|
    ensures forall i :: 0 <= i < |teams| ==>
      r[i].teamNumber == teams[i].teamNumber && |r[i].players| == |teams[i].players| &&
      forall j :: 0 <= j < |teams[i].players| ==> r[i].players[j] == Doc(Some(teams[i].players[j]))
  {
    seq(|teams|, i requires 0 <= i < |teams| =>
      TeamInput(teams[i].teamNumber, seq(|teams[i].players|, j requires 0 <= j < |teams[i].players| => Doc(Some(teams[i].players[j])))))
  }

  /** Sending back the populated teams unchanged stores exactly the teams that were shown. */
  lemma UpdateTeamsRoundTrip(teams: seq<Team>)
    ensures ToTeams(NormalizeTeams(AsDocuments(teams))) == Some(teams)
  {
    var r := ToTeams(NormalizeTeams(AsDocuments(teams)));
    assert r.Some?;
    forall i | 0 <= i < |teams|
      ensures r.value[i] == teams[i]
    {
      assert r.value[i].players == teams[i].players;
    }
    assert r.value == teams;
  }
}
