/** A product record of the static catalogue document (one entry of
    `entertainmentItems`), with the fields the scripts read. Prices and scores
    are exact reals, release dates integer timestamps. */
module Games {
  import opened Wrappers

  datatype Game = Game(
    uniqueIdentifier: string,
    title: string,
    subtitle: string,
    description: string,
    category: string,
    tags: seq<string>,
    price: real,
    userScore: real,
    criticScore: real,
    releaseDate: int,
    image: string,        // `game.image`, read by the catalogue page
    primaryImage: string  // `game.visualAssets.primaryImage`, read by the other pages
  )

  /** `games.find((g) => g.uniqueIdentifier === id)`: the first game with the
      identifier, or None (`undefined`) when there is none. */
  function FindGame(games: seq<Game>, id: string): (r: Option<Game>)
    ensures r.None? <==> forall i :: 0 <= i < |games| ==> games[i].uniqueIdentifier != id
    ensures r.Some? ==> exists i :: 0 <= i < |games| && games[i] == r.value
                          && r.value.uniqueIdentifier == id
                          && forall j :: 0 <= j < i ==> games[j].uniqueIdentifier != id
  {
    if games == [] then None
    else if games[0].uniqueIdentifier == id then Some(games[0])
    else
      var r := FindGame(games[1..], id);
      assert r.Some? ==> exists i :: 0 <= i < |games| && games[i] == r.value
                          && forall j :: 0 <= j < i ==> games[j].uniqueIdentifier != id by {
        if r.Some? {
          var i :| 0 <= i < |games[1..]| && games[1..][i] == r.value
                   && forall j :: 0 <= j < i ==> games[1..][j].uniqueIdentifier != id;
          assert games[i + 1] == r.value;
          forall j | 0 <= j < i + 1 ensures games[j].uniqueIdentifier != id {
            if j > 0 { assert games[j] == games[1..][j - 1]; }
          }
        }
      }
      r
  }
}
