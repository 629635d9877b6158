/** The catalogue page engine of scripts/catalog-manager.js
    (`catalogManagementSystem`): search, sort, pagination, the shown range and
    the page's own add-to-cart.

    `localeCompare` is not modelled character by character: the alphabetical
    sort takes a collation key `collate` (a title's rank in the locale's
    order; equal ranks compare as 0), so every sort is a stable sort by a
    real-valued key. Descending sorts use the negated key, which orders pairs
    exactly as the comparators `b.x - a.x` do. */
module Catalog {
  import opened Wrappers
  import opened Text
  import opened Games
  import opened CartManagement

  // ---------------------------------------------------------------------
  // Search (applyFilters, lines 88-97)

  /** `tags.some((tag) => tag.toLowerCase().includes(q))`. */
  function AnyTagIncludes(tags: seq<string>, q: string): (r: bool)
    ensures r <==> exists i :: 0 <= i < |tags| && Includes(Lower(tags[i]), q)
  {
    if tags == [] then false
    else if Includes(Lower(tags[0]), q) then true
    else
      var r := AnyTagIncludes(tags[1..], q);
      assert forall i :: 1 <= i < |tags| ==> tags[i] == tags[1..][i - 1];
      r
  }

  /** The search predicate for an already lower-cased query `q`. */
  predicate MatchesQuery(g: Game, q: string) {
    || Includes(Lower(g.title), q)
    || Includes(Lower(g.subtitle), q)
    || Includes(Lower(g.description), q)
    || AnyTagIncludes(g.tags, q)
  }

  /** `filter` with MatchesQuery. */
  function KeepMatching(games: seq<Game>, q: string): (r: seq<Game>)
    ensures forall g :: g in r <==> g in games && MatchesQuery(g, q)
    ensures forall g :: multiset(r)[g] == if MatchesQuery(g, q) then multiset(games)[g] else 0
    ensures SubsequenceOf(r, games)
  {
    if games == [] then []
    else
      assert games == [games[0]] + games[1..];
      if MatchesQuery(games[0], q) then [games[0]] + KeepMatching(games[1..], q)
      else KeepMatching(games[1..], q)
  }

  /** `a` is `b` with some elements left out, the rest in their order. */
  predicate SubsequenceOf(a: seq<Game>, b: seq<Game>)
    decreases |b|
  {
    if a == [] then true
    else if b == [] then false
    else if a[0] == b[0] then SubsequenceOf(a[1..], b[1..])
    else SubsequenceOf(a, b[1..])
  }

  /** The search step: a blank query (empty or whitespace only) keeps every
      game; otherwise the query is lower-cased, not trimmed, and matched. */
  function SearchFilter(games: seq<Game>, query: string): (r: seq<Game>)
    ensures SubsequenceOf(r, games)
    ensures multiset(r) <= multiset(games)
  {
    if Trim(query) == "" then SubsequenceOfSelf(games); games else KeepMatching(games, Lower(query))
  }

  /** A blank query keeps the list; any other query keeps exactly the games
      whose lower-cased title, subtitle, description or some tag contains
      the lower-cased query, in their order. */
  lemma {:induction false} SearchFilterSpec(games: seq<Game>, query: string)
    ensures AllSpace(query) ==> SearchFilter(games, query) == games
    ensures !AllSpace(query) ==>
              forall g :: g in SearchFilter(games, query) <==> g in games && MatchesQuery(g, Lower(query))
    ensures SubsequenceOf(SearchFilter(games, query), games)
  {
    TrimEmptyIffAllSpace(query);
    SubsequenceOfSelf(games);
  }

  lemma {:induction false} SubsequenceOfSelf(s: seq<Game>)
    ensures SubsequenceOf(s, s)
  {
    if s != [] { SubsequenceOfSelf(s[1..]); }
  }

  // ---------------------------------------------------------------------
  // Sorting (sortGames, lines 118-138)

  /** Places `x` before the first element whose key is not smaller: an
      element that came earlier in the input stays ahead of its equals. */
  function Insert(x: Game, s: seq<Game>, key: Game -> real): (r: seq<Game>)
    ensures multiset(r) == multiset(s) + multiset{x}
  {
    if s == [] || key(x) <= key(s[0]) then [x] + s
    else
      assert s == [s[0]] + s[1..];
      [s[0]] + Insert(x, s[1..], key)
  }

  /** A stable insertion sort, ascending by `key` (what `Array.prototype.sort`
      with a numeric comparator computes on a copy). */
  function StableSort(s: seq<Game>, key: Game -> real): (r: seq<Game>)
    ensures multiset(r) == multiset(s)
  {
    if s == [] then []
    else
      assert s == [s[0]] + s[1..];
      Insert(s[0], StableSort(s[1..], key), key)
  }

  predicate SortedBy(s: seq<Game>, key: Game -> real) {
    forall i, j :: 0 <= i < j < |s| ==> key(s[i]) <= key(s[j])
  }

  /** The games of `s` whose key is `k`, in their order in `s`. */
  function WithKey(s: seq<Game>, key: Game -> real, k: real): seq<Game> {
    if s == [] then []
    else (if key(s[0]) == k then [s[0]] else []) + WithKey(s[1..], key, k)
  }

  lemma {:induction false} InsertMembers(x: Game, s: seq<Game>, key: Game -> real)
    ensures forall y :: y in Insert(x, s, key) ==> y == x || y in s
  {
    if s != [] && key(x) > key(s[0]) {
      InsertMembers(x, s[1..], key);
    }
  }

  lemma {:induction false} ConsSorted(a: Game, t: seq<Game>, key: Game -> real)
    requires SortedBy(t, key)
    requires forall y :: y in t ==> key(a) <= key(y)
    ensures SortedBy([a] + t, key)
  {
    var r := [a] + t;
    forall i, j | 0 <= i < j < |r| ensures key(r[i]) <= key(r[j]) {
      assert r[j] == t[j - 1];
      if i > 0 {
        assert r[i] == t[i - 1];
      }
    }
  }

  lemma {:induction false} InsertSorted(x: Game, s: seq<Game>, key: Game -> real)
    requires SortedBy(s, key)
    ensures SortedBy(Insert(x, s, key), key)
  {
    if s == [] || key(x) <= key(s[0]) {
      forall y | y in s ensures key(x) <= key(y) {
        var m :| 0 <= m < |s| && s[m] == y;
        assert key(s[0]) <= key(s[m]);
      }
      ConsSorted(x, s, key);
    } else {
      assert SortedBy(s[1..], key);
      InsertSorted(x, s[1..], key);
      InsertMembers(x, s[1..], key);
      var t := Insert(x, s[1..], key);
      forall y | y in t ensures key(s[0]) <= key(y) {
        if y != x {
          var m :| 0 <= m < |s[1..]| && s[1..][m] == y;
          assert s[m + 1] == y;
        }
      }
      ConsSorted(s[0], t, key);
    }
  }

  /** WithKey on a list built from a first game and the rest. */
  lemma {:induction false} WithKeyCons(a: Game, t: seq<Game>, key: Game -> real, k: real)
    ensures WithKey([a] + t, key, k) == (if key(a) == k then [a] else []) + WithKey(t, key, k)
  {
    assert ([a] + t)[0] == a && ([a] + t)[1..] == t;
  }

  lemma {:induction false} InsertStable(x: Game, s: seq<Game>, key: Game -> real, k: real)
    ensures WithKey(Insert(x, s, key), key, k) == (if key(x) == k then [x] else []) + WithKey(s, key, k)
  {
    if s == [] || key(x) <= key(s[0]) {
      WithKeyCons(x, s, key, k);
    } else {
      var hx := if key(x) == k then [x] else [];
      var h0 := if key(s[0]) == k then [s[0]] else [];
      var t := Insert(x, s[1..], key);
      var w := WithKey(s[1..], key, k);
      assert Insert(x, s, key) == [s[0]] + t;
      WithKeyCons(s[0], t, key, k);
      InsertStable(x, s[1..], key, k);
      assert WithKey(s, key, k) == h0 + w;
      if hx == [] {
        assert hx + w == w && hx + (h0 + w) == h0 + w;
      } else {
        assert key(s[0]) != k;
        assert h0 + (hx + w) == hx + w && h0 + w == w;
      }
    }
  }

  /** The sort's result is a permutation of its input, ascending by the key,
      and stable: the games sharing any one key value keep their input order. */
  lemma {:induction false} StableSortCorrect(s: seq<Game>, key: Game -> real)
    ensures SortedBy(StableSort(s, key), key)
    ensures multiset(StableSort(s, key)) == multiset(s)
    ensures forall k :: WithKey(StableSort(s, key), key, k) == WithKey(s, key, k)
  {
    if s != [] {
      var t := StableSort(s[1..], key);
      assert StableSort(s, key) == Insert(s[0], t, key);
      StableSortCorrect(s[1..], key);
      InsertSorted(s[0], t, key);
      forall k ensures WithKey(StableSort(s, key), key, k) == WithKey(s, key, k) {
        InsertStable(s[0], t, key, k);
      }
    }
  }

  /** The key each sort option orders by; None for "featured" and every
      option the switch does not name (no reordering). */
  function KeyFor(sortBy: string, collate: string -> int): (r: Option<Game -> real>)
    ensures r.None? <==> sortBy !in ["alphabetical", "price-low", "price-high", "rating", "newest"]
  {
    if sortBy == "alphabetical" then Some((g: Game) => collate(g.title) as real)
    else if sortBy == "price-low" then Some((g: Game) => g.price)
    else if sortBy == "price-high" then Some((g: Game) => -g.price)
    else if sortBy == "rating" then Some((g: Game) => -g.userScore)
    else if sortBy == "newest" then Some((g: Game) => -(g.releaseDate as real))
    else None
  }

  /** `sortGames`: sorts a copy; the input itself is a value and is never changed. */
  function SortGames(games: seq<Game>, sortBy: string, collate: string -> int): (r: seq<Game>)
    ensures multiset(r) == multiset(games)
  {
    match KeyFor(sortBy, collate)
    case None => games
    case Some(key) => StableSort(games, key)
  }

  /** What each option promises: the result is a permutation of the input;
      "price-low" gives non-decreasing prices, "price-high" non-increasing
      prices, "rating" non-increasing user scores, "newest" non-increasing
      release dates, "alphabetical" non-decreasing collation rank; ties keep
      their input order; "featured" and unknown options return the input. */
  lemma {:induction false} SortGamesSpec(games: seq<Game>, sortBy: string, collate: string -> int)
    ensures var r := SortGames(games, sortBy, collate);
      && multiset(r) == multiset(games)
      && (KeyFor(sortBy, collate).None? ==> r == games)
      && (KeyFor(sortBy, collate).Some? ==> forall k ::
            WithKey(r, KeyFor(sortBy, collate).value, k) == WithKey(games, KeyFor(sortBy, collate).value, k))
      && (sortBy == "price-low" ==> forall i, j :: 0 <= i < j < |r| ==> r[i].price <= r[j].price)
      && (sortBy == "price-high" ==> forall i, j :: 0 <= i < j < |r| ==> r[i].price >= r[j].price)
      && (sortBy == "rating" ==> forall i, j :: 0 <= i < j < |r| ==> r[i].userScore >= r[j].userScore)
      && (sortBy == "newest" ==> forall i, j :: 0 <= i < j < |r| ==> r[i].releaseDate >= r[j].releaseDate)
      && (sortBy == "alphabetical" ==> forall i, j :: 0 <= i < j < |r| ==> collate(r[i].title) <= collate(r[j].title))
  {
    match KeyFor(sortBy, collate)
    case None =>
    case Some(key) => StableSortCorrect(games, key);
  }

  // ---------------------------------------------------------------------
  // Pagination arithmetic

  /** `Math.ceil(n / perPage)`. */
  function TotalPages(n: nat, perPage: int): (r: nat)
    requires perPage >= 1
    ensures r * perPage >= n
    ensures r == 0 || (r - 1) * perPage < n
  {
    var r := (n + perPage - 1) / perPage;
    assert n + perPage - 1 == r * perPage + (n + perPage - 1) % perPage;
    r
  }

  /** `list.slice((page - 1) * perPage, page * perPage)` for `page >= 1`:
      at most `perPage` consecutive elements from the page's first position,
      cut short by the end of the list. */
  function PageSlice(list: seq<Game>, page: int, perPage: int): (r: seq<Game>)
    requires page >= 1 && perPage >= 1
    ensures |r| <= perPage
    ensures var start := (page - 1) * perPage;
            |r| == if start >= |list| then 0
                   else if start + perPage <= |list| then perPage
                   else |list| - start
    ensures forall i :: 0 <= i < |r| ==> (page - 1) * perPage + i < |list| && r[i] == list[(page - 1) * perPage + i]
  {
    Window(list, (page - 1) * perPage, perPage)
  }

  /** `list.slice(start, start + count)`: up to `count` consecutive
      elements from position `start`, cut short by the end of the list. */
  function Window(list: seq<Game>, start: nat, count: nat): (r: seq<Game>)
    ensures |r| == if start >= |list| then 0
                   else if start + count <= |list| then count
                   else |list| - start
    ensures forall i :: 0 <= i < |r| ==> start + i < |list| && r[i] == list[start + i]
  {
    if start >= |list| then []
    else if start + count <= |list| then list[start..start + count]
    else list[start..]
  }

  /** One numbered button of the pagination bar. */
  datatype PageButton = PageButton(page: int, isActive: bool)

  /** The numbered buttons `renderPagination` emits: a window of at most five
      consecutive pages, shifted left when it would run past the last page. */
  method PaginationWindow(currentPage: int, totalPages: nat) returns (buttons: seq<PageButton>)
    ensures |buttons| == if totalPages < 5 then totalPages else 5
    ensures forall k :: 0 <= k < |buttons| ==> 1 <= buttons[k].page <= totalPages
    ensures forall k :: 0 < k < |buttons| ==> buttons[k].page == buttons[k - 1].page + 1
    ensures forall k :: 0 <= k < |buttons| ==> (buttons[k].isActive <==> buttons[k].page == currentPage)
    ensures 1 <= currentPage <= totalPages ==> exists k :: 0 <= k < |buttons| && buttons[k].isActive
  {
    var maxVisiblePages := 5;
    var startPage := if currentPage - maxVisiblePages / 2 > 1 then currentPage - maxVisiblePages / 2 else 1;
    var endPage := if totalPages < startPage + maxVisiblePages - 1 then totalPages else startPage + maxVisiblePages - 1;
    if endPage - startPage + 1 < maxVisiblePages {
      startPage := if endPage - maxVisiblePages + 1 > 1 then endPage - maxVisiblePages + 1 else 1;
    }
    buttons := [];
    var i := startPage;
    while i <= endPage
      invariant startPage <= i <= endPage + 1 || (i == startPage && endPage < startPage)
      invariant |buttons| == i - startPage
      invariant forall k :: 0 <= k < |buttons| ==> buttons[k] == PageButton(startPage + k, startPage + k == currentPage)
    {
      buttons := buttons + [PageButton(i, i == currentPage)];
      i := i + 1;
    }
    if 1 <= currentPage <= totalPages {
      assert buttons[currentPage - startPage].isActive;
    }
  }

  // ---------------------------------------------------------------------
  // Score colour of the catalogue cards (getScoreColor, lines 244-249)

  /** The colour band of a user score: 3 for >= 8.5, 2 for >= 7.5, 1 for
      >= 6.5, 0 below. */
  function CatalogScoreBand(score: real): (band: nat)
    ensures band <= 3
  {
    if score >= 8.5 then 3 else if score >= 7.5 then 2 else if score >= 6.5 then 1 else 0
  }

  function CatalogScoreColor(score: real): (color: string)
    ensures color == "#10b981" <==> score >= 8.5
    ensures color == "#f59e0b" <==> 7.5 <= score < 8.5
    ensures color == "#ef4444" <==> 6.5 <= score < 7.5
    ensures color == "#6b7280" <==> score < 6.5
  {
    ["#6b7280", "#ef4444", "#f59e0b", "#10b981"][CatalogScoreBand(score)]
  }

  /** A higher score never gets a lower band, and each band is a half-open
      interval between the thresholds. */
  lemma {:induction false} CatalogScoreBandMonotone(a: real, b: real)
    ensures a <= b ==> CatalogScoreBand(a) <= CatalogScoreBand(b)
    ensures CatalogScoreBand(a) == 3 <==> a >= 8.5
    ensures CatalogScoreBand(a) >= 2 <==> a >= 7.5
    ensures CatalogScoreBand(a) == 0 <==> a < 6.5
  {
  }

  // ---------------------------------------------------------------------
  // The page state (`currentState`)

  /** A cart line the catalogue page pushes: keyed by `uniqueIdentifier`,
      with no `id` property, and the game's `image`. */
  function CatalogLine(g: Game): CartLine {
    CartLine(None, Some(g.uniqueIdentifier), g.title, g.price, g.image, 1)
  }

  /** The two writers of the cart slot do not see each other's lines: in a
      cart written only by the cart store (no line has a `uniqueIdentifier`)
      the catalogue's add always appends a second line, even for a game whose
      id is already there. */
  lemma {:induction false} CatalogAddIgnoresStoreLines(items: seq<CartLine>, g: Game)
    requires forall i :: 0 <= i < |items| ==> items[i].uniqueIdentifier.None?
    ensures Bump(items, ByUniqueIdentifier, Some(g.uniqueIdentifier), CatalogLine(g))
            == items + [CatalogLine(g)]
  {
  }

  class CatalogState {
    var games: seq<Game>
    var filteredGames: seq<Game>
    var searchQuery: string
    var sortBy: string
    var currentPage: int
    const gamesPerPage: int
    var totalPages: int
    const collate: string -> int

    ghost predicate Valid()
      reads this
    {
      gamesPerPage >= 1 && currentPage >= 1
    }

    constructor (collate: string -> int)
      ensures Valid()
      ensures games == [] && filteredGames == [] && searchQuery == "" && sortBy == "featured"
      ensures currentPage == 1 && gamesPerPage == 6 && totalPages == 1
      ensures this.collate == collate
    {
      games := [];
      filteredGames := [];
      searchQuery := "";
      sortBy := "featured";
      currentPage := 1;
      gamesPerPage := 6;
      totalPages := 1;
      this.collate := collate;
    }

    /** `loadGamesData` after the fetch: the list is shown unfiltered and the
        page count is recomputed; the current page is left as it is. */
    method LoadGamesData(data: seq<Game>)
      requires Valid()
      modifies this
      ensures Valid()
      ensures games == data && filteredGames == data
      ensures totalPages == TotalPages(|data|, gamesPerPage)
      ensures searchQuery == old(searchQuery) && sortBy == old(sortBy) && currentPage == old(currentPage)
    {
      games := data;
      filteredGames := data;
      totalPages := TotalPages(|data|, gamesPerPage);
    }

    /** `applyFilters`: recompute from the full list, never from the previous
        result, then recount the pages and pull the current page back into
        range. */
    method ApplyFilters()
      requires Valid()
      modifies this
      ensures Valid()
      ensures filteredGames == SortGames(SearchFilter(games, searchQuery), sortBy, collate)
      ensures totalPages == TotalPages(|filteredGames|, gamesPerPage)
      ensures totalPages * gamesPerPage >= |filteredGames| > (totalPages - 1) * gamesPerPage || totalPages == 0
      ensures currentPage == if old(currentPage) > totalPages then (if totalPages == 0 then 1 else totalPages)
                             else old(currentPage)
      ensures 1 <= currentPage <= (if totalPages < 1 then 1 else totalPages)
      ensures games == old(games) && searchQuery == old(searchQuery) && sortBy == old(sortBy)
    {
      var filtered := games;
      if Trim(searchQuery) != "" {
        var query := Lower(searchQuery);
        filtered := KeepMatching(filtered, query);
      }
      filtered := SortGames(filtered, sortBy, collate);
      filteredGames := filtered;
      totalPages := TotalPages(|filtered|, gamesPerPage);
      if currentPage > totalPages {
        currentPage := if totalPages == 0 then 1 else totalPages;
      }
    }

    /** The search box's input handler: store the query, go back to page 1,
        re-apply. */
    method OnSearchInput(value: string)
      requires Valid()
      modifies this
      ensures Valid()
      ensures searchQuery == value && currentPage == 1
      ensures filteredGames == SortGames(SearchFilter(games, value), sortBy, collate)
      ensures totalPages == TotalPages(|filteredGames|, gamesPerPage)
      ensures games == old(games) && sortBy == old(sortBy)
    {
      searchQuery := value;
      currentPage := 1;
      ApplyFilters();
    }

    /** The sort selector's change handler: the current page is kept unless
        the recount puts it out of range. */
    method OnSortChange(value: string)
      requires Valid()
      modifies this
      ensures Valid()
      ensures sortBy == value
      ensures filteredGames == SortGames(SearchFilter(games, searchQuery), value, collate)
      ensures totalPages == TotalPages(|filteredGames|, gamesPerPage)
      ensures currentPage == if old(currentPage) > totalPages then (if totalPages == 0 then 1 else totalPages)
                             else old(currentPage)
      ensures games == old(games) && searchQuery == old(searchQuery)
    {
      sortBy := value;
      ApplyFilters();
    }

    /** `goToPage`: a page outside `1..totalPages` changes nothing; any other
        becomes the current page and nothing else changes. */
    method GoToPage(page: int)
      requires Valid()
      modifies this
      ensures Valid()
      ensures page < 1 || page > old(totalPages) ==> currentPage == old(currentPage)
      ensures 1 <= page <= old(totalPages) ==> currentPage == page
      ensures games == old(games) && filteredGames == old(filteredGames) && totalPages == old(totalPages)
      ensures searchQuery == old(searchQuery) && sortBy == old(sortBy)
    {
      if page < 1 || page > totalPages {
        return;
      }
      currentPage := page;
    }

    /** `getCurrentPageGames`. */
    function CurrentPageGames(): (r: seq<Game>)
      requires Valid()
      reads this
      ensures |r| <= gamesPerPage
      ensures forall i :: 0 <= i < |r| ==>
                (currentPage - 1) * gamesPerPage + i < |filteredGames|
                && r[i] == filteredGames[(currentPage - 1) * gamesPerPage + i]
    {
      PageSlice(filteredGames, currentPage, gamesPerPage)
    }

    /** The "start-end" text of `updateStats`: the 1-based positions of the
        first and last games shown. */
    function GamesRange(): (range: (int, int))
      requires Valid()
      reads this
      ensures range.0 >= 1 && range.1 <= |filteredGames|
      ensures |CurrentPageGames()| == if range.1 < range.0 then 0 else range.1 - range.0 + 1
    {
      var startGame := (currentPage - 1) * gamesPerPage + 1;
      var endGame := if startGame + gamesPerPage - 1 < |filteredGames| then startGame + gamesPerPage - 1
                     else |filteredGames|;
      (startGame, endGame)
    }

    /** The page's own `addGameToCart`: an unknown id does nothing; otherwise
        the cart slot is read (missing or unparsable reads as empty), the
        first line whose `uniqueIdentifier` matches is raised by one in place,
        or a new `uniqueIdentifier`-keyed line is pushed, and the slot is
        written back. */
    method AddGameToCart(gameId: string, store: CartStore)
      modifies store
      ensures FindGame(games, gameId).None? ==> store.slot == old(store.slot)
      ensures FindGame(games, gameId).Some? ==>
                store.slot == Some(Bump(ReadCart(old(store.slot)), ByUniqueIdentifier, Some(gameId),
                                        CatalogLine(FindGame(games, gameId).value)))
      ensures FindGame(games, gameId).Some? ==> ItemCount(store.Items()) == ItemCount(old(store.Items())) + 1
    {
      var game := FindGame(games, gameId);
      if game.None? {
        return;
      }
      var cart := store.Items();
      var existing := FindIndex(cart, ByUniqueIdentifier, Some(gameId));
      if existing >= 0 {
        var line := cart[existing];
        SumsUpdate(cart, existing, line.(quantity := line.quantity + 1));
        cart := cart[existing := line.(quantity := line.quantity + 1)];
      } else {
        SumsAppend(cart, [CatalogLine(game.value)]);
        cart := cart + [CatalogLine(game.value)];
      }
      store.slot := Some(cart);
    }
  }
}
