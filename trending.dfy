/** The home page's trending section, scripts/trending-loader.js
    (`trendingGamesLoader`): the top six games by combined score, chosen by
    sorting the caller's array in place; the score badges; and the cart
    payload its add button sends to the cart store. */
module Trending {
  import opened Wrappers
  import opened Games
  import opened CartManagement

  /** The combined score: the user score averaged with the critic score
      scaled from 100 down to 10. */
  function TrendScore(g: Game): (score: real)
    ensures 0.0 <= g.userScore <= 10.0 && 0.0 <= g.criticScore <= 100.0 ==> 0.0 <= score <= 10.0
    ensures g.userScore * 10.0 == g.criticScore ==> score == g.userScore
  {
    (g.userScore + g.criticScore / 10.0) / 2.0
  }

  /** Non-increasing combined score along `s`. */
  ghost predicate ScoreDescending(s: seq<Game>) {
    forall p, q :: 0 <= p < q < |s| ==> TrendScore(s[p]) >= TrendScore(s[q])
  }

  /** The in-place sort with comparator `bScore - aScore`: an insertion sort
      that moves each game left past every game scoring strictly less, so
      equal scores keep their order. */
  method SortByTrendScore(a: array<Game>)
    modifies a
    ensures multiset(a[..]) == multiset(old(a[..]))
    ensures ScoreDescending(a[..])
  {
    for i := 0 to a.Length
      invariant multiset(a[..]) == multiset(old(a[..]))
      invariant ScoreDescending(a[..i])
    {
      SinkLeft(a, i);
    }
    assert a[..a.Length] == a[..];
  }

  /** One insertion step: the game at `i` moves left past the games before
      it that score strictly less, leaving `a[..i + 1]` in order. */
  method SinkLeft(a: array<Game>, i: nat)
    requires i < a.Length
    requires ScoreDescending(a[..i])
    modifies a
    ensures multiset(a[..]) == multiset(old(a[..]))
    ensures ScoreDescending(a[..i + 1])
  {
    var j: nat := i;
    SinkStart(a[..], i);
    while j > 0 && TrendScore(a[j - 1]) < TrendScore(a[j])
      invariant SinkInvariant(a[..], j, i)
      invariant multiset(a[..]) == multiset(old(a[..]))
    {
      ghost var before := a[..];
      Swap(a, j - 1, j);
      SinkStep(before, j, i);
      j := j - 1;
    }
    SinkDone(a[..], j, i);
  }

  /** While the game at `j` sinks into `s[..i + 1]`: the others are in
      order, and every game after `j` scores strictly less than it. */
  ghost predicate SinkInvariant(s: seq<Game>, j: nat, i: nat) {
    && j <= i < |s|
    && (forall p, q :: 0 <= p < q <= i && p != j && q != j ==> TrendScore(s[p]) >= TrendScore(s[q]))
    && (forall q :: j < q <= i ==> TrendScore(s[j]) > TrendScore(s[q]))
  }

  /** A sorted prefix followed by any game starts the sinking. */
  lemma {:induction false} SinkStart(s: seq<Game>, i: nat)
    requires i < |s| && ScoreDescending(s[..i])
    ensures SinkInvariant(s, i, i)
  {
    forall p, q | 0 <= p < q <= i && p != i && q != i ensures TrendScore(s[p]) >= TrendScore(s[q]) {
      assert s[..i][p] == s[p] && s[..i][q] == s[q];
    }
  }

  /** Swapping the sinking game with a lower-scoring left neighbour keeps
      the invariant, one place further left. */
  lemma {:induction false} SinkStep(s: seq<Game>, j: nat, i: nat)
    requires SinkInvariant(s, j, i) && j > 0 && TrendScore(s[j - 1]) < TrendScore(s[j])
    ensures SinkInvariant(s[j - 1 := s[j]][j := s[j - 1]], j - 1, i)
  {
    var t := s[j - 1 := s[j]][j := s[j - 1]];
    assert t[j - 1] == s[j] && t[j] == s[j - 1];
    assert forall m :: 0 <= m < |s| && m != j - 1 && m != j ==> t[m] == s[m];
  }

  /** When the sinking stops, the whole prefix `s[..i + 1]` is in order. */
  lemma {:induction false} SinkDone(s: seq<Game>, j: nat, i: nat)
    requires SinkInvariant(s, j, i)
    requires j == 0 || TrendScore(s[j - 1]) >= TrendScore(s[j])
    ensures ScoreDescending(s[..i + 1])
  {
    var r := s[..i + 1];
    forall p, q | 0 <= p < q < |r| ensures TrendScore(r[p]) >= TrendScore(r[q]) {
      assert r[p] == s[p] && r[q] == s[q];
      if p != j && q != j {
      } else if p == j {
      } else if p < j - 1 {
        assert TrendScore(s[p]) >= TrendScore(s[j - 1]);
      }
    }
  }

  /** Exchanges two games; the array keeps the same games. */
  method Swap(a: array<Game>, x: nat, y: nat)
    requires x < a.Length && y < a.Length
    modifies a
    ensures a[..] == old(a[..])[x := old(a[y])][y := old(a[x])]
    ensures multiset(a[..]) == multiset(old(a[..]))
  {
    a[x], a[y] := a[y], a[x];
  }

  /** `selectTrendingGames`: sorts the given array itself (the caller's
      array is reordered) and returns its first six games, or all of them
      when there are fewer. */
  method SelectTrendingGames(allGames: array<Game>) returns (top: seq<Game>)
    modifies allGames
    ensures multiset(allGames[..]) == multiset(old(allGames[..]))
    ensures ScoreDescending(allGames[..])
    ensures top == allGames[..if allGames.Length < 6 then allGames.Length else 6]
    ensures |top| == if allGames.Length < 6 then allGames.Length else 6
    ensures ScoreDescending(top)
    ensures forall g, h :: g in top && h in allGames[|top|..] ==> TrendScore(h) <= TrendScore(g)
  {
    SortByTrendScore(allGames);
    var n := if allGames.Length < 6 then allGames.Length else 6;
    top := allGames[..n];
    forall g, h | g in top && h in allGames[n..] ensures TrendScore(h) <= TrendScore(g) {
      var p :| 0 <= p < n && top[p] == g;
      var q :| 0 <= q < allGames.Length - n && allGames[n..][q] == h;
      assert allGames[..][p] == g && allGames[..][n + q] == h;
    }
  }

  // ---------------------------------------------------------------------
  // Score badges (getScoreColor, getScoreClass)

  /** The badge tier: 3 from 9.0, 2 from 8.0, 1 from 7.0, 0 below. */
  function ScoreTier(score: real): (tier: nat)
    ensures tier <= 3
  {
    if score >= 9.0 then 3 else if score >= 8.0 then 2 else if score >= 7.0 then 1 else 0
  }

  function ScoreColor(score: real): (color: string)
    ensures color == "#10b981" <==> score >= 9.0
    ensures color == "#64748b" <==> score < 7.0
  {
    if score >= 9.0 then "#10b981"
    else if score >= 8.0 then "#f59e0b"
    else if score >= 7.0 then "#f97316"
    else "#64748b"
  }

  function ScoreClass(score: real): (cssClass: string)
    ensures cssClass == "score-excellent" <==> score >= 9.0
    ensures cssClass == "score-average" <==> score < 7.0
  {
    if score >= 9.0 then "score-excellent"
    else if score >= 8.0 then "score-great"
    else if score >= 7.0 then "score-good"
    else "score-average"
  }

  /** Colour and class follow the same thresholds: both are fixed by the
      tier, which never drops as the score rises. */
  lemma {:induction false} BadgesShareThresholds(a: real, b: real)
    ensures ScoreClass(a) == ["score-average", "score-good", "score-great", "score-excellent"][ScoreTier(a)]
    ensures ScoreColor(a) == ["#64748b", "#f97316", "#f59e0b", "#10b981"][ScoreTier(a)]
    ensures ScoreTier(a) == ScoreTier(b) ==> ScoreClass(a) == ScoreClass(b) && ScoreColor(a) == ScoreColor(b)
    ensures a <= b ==> ScoreTier(a) <= ScoreTier(b)
  {
  }

  // ---------------------------------------------------------------------
  // Add to cart

  /** The record the trending card's button hands to the cart store: the
      catalogue identifier becomes the line's `id`, and the image is the
      primary image. */
  function TrendingPayload(g: Game): GameData {
    GameData(Some(g.uniqueIdentifier), g.title, g.price, g.primaryImage)
  }

  /** `addGameToCart`: an unknown id does nothing; otherwise the game is
      added through the cart store, keyed by its identifier as `id`. */
  method AddGameToCart(gameId: string, games: seq<Game>, store: CartStore)
    modifies store
    ensures FindGame(games, gameId).None? ==> store.slot == old(store.slot)
    ensures FindGame(games, gameId).Some? ==>
              store.slot == Some(AddLine(old(store.Items()), TrendingPayload(FindGame(games, gameId).value)))
    ensures FindGame(games, gameId).Some? ==> FindIndex(store.Items(), ById, Some(gameId)) >= 0
    ensures ItemCount(store.Items()) == ItemCount(old(store.Items())) + (if FindGame(games, gameId).Some? then 1 else 0)
  {
    var game := FindGame(games, gameId);
    if game.Some? {
      PayloadLinePresent(store.Items(), game.value);
      store.AddItemToCart(TrendingPayload(game.value));
    }
  }

  /** After the add, the cart has a line whose `id` is the game's
      identifier; its quantity is one more than before, or 1 for a new line. */
  lemma {:induction false} PayloadLinePresent(items: seq<CartLine>, g: Game)
    ensures var r := AddLine(items, TrendingPayload(g));
            var i := FindIndex(r, ById, Some(g.uniqueIdentifier));
            && i >= 0
            && r[i].quantity == (if FindIndex(items, ById, Some(g.uniqueIdentifier)) >= 0
                                 then items[FindIndex(items, ById, Some(g.uniqueIdentifier))].quantity + 1 else 1)
            && (FindIndex(items, ById, Some(g.uniqueIdentifier)) == -1 ==>
                  r[i].title == g.title && r[i].price == g.price && r[i].image == g.primaryImage)
  {
    var k := FindIndex(items, ById, Some(g.uniqueIdentifier));
    var r := AddLine(items, TrendingPayload(g));
    if k >= 0 {
      assert r == items[k := items[k].(quantity := items[k].quantity + 1)];
      assert KeyOf(r[k], ById) == Some(g.uniqueIdentifier);
      assert forall p :: 0 <= p < k ==> KeyOf(r[p], ById) == KeyOf(items[p], ById) != Some(g.uniqueIdentifier);
      var f := FindIndex(r, ById, Some(g.uniqueIdentifier));
      assert f == k;
    } else {
      assert r[|items|].id == Some(g.uniqueIdentifier);
      assert forall p :: 0 <= p < |items| ==> r[p] == items[p];
      assert FindIndex(r, ById, Some(g.uniqueIdentifier)) == |items|;
    }
  }
}
