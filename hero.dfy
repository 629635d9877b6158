/** The parts of scripts/hero-animations.js (`heroAnimations`) that decide
    something: which catalogue category a realm card leads to, and the
    hero's newsletter form. The animations themselves are presentation. */
module Hero {
  import opened Wrappers
  import opened Text
  import opened Email

  /** The class-name prefix that names a realm card's category. */
  const CardPrefix: string := "realm-card--"

  /** The catalogue address a realm card leads to, before its category. */
  const CategoryUrlPrefix: string := "game-catalog.html?category="

  /** The position of the first class token that starts with the prefix
      (`classes.find(cls => cls.startsWith("realm-card--"))`). */
  function FirstCardToken(tokens: seq<string>): (r: Option<nat>)
    ensures r.None? <==> forall i :: 0 <= i < |tokens| ==> !(CardPrefix <= tokens[i])
    ensures r.Some? ==> r.value < |tokens| && CardPrefix <= tokens[r.value]
                        && forall j :: 0 <= j < r.value ==> !(CardPrefix <= tokens[j])
  {
    if tokens == [] then None
    else if CardPrefix <= tokens[0] then Some(0)
    else
      var r := FirstCardToken(tokens[1..]);
      assert forall i :: 1 <= i < |tokens| ==> tokens[i] == tokens[1..][i - 1];
      if r.None? then None else Some(r.value + 1)
  }

  /** `getCardType`: the class name is split on single spaces; the first
      token carrying the prefix gives the rest of that token (the prefix's
      first occurrence is at its start, so `replace` cuts exactly the
      prefix); with no such token the category is "all". */
  function GetCardType(className: string): (t: string)
    ensures var tokens := Split(className, ' ');
            && ((forall i :: 0 <= i < |tokens| ==> !(CardPrefix <= tokens[i])) ==> t == "all")
            && (forall i :: (0 <= i < |tokens| && CardPrefix <= tokens[i]
                             && forall j :: 0 <= j < i ==> !(CardPrefix <= tokens[j])) ==>
                  t == tokens[i][|CardPrefix|..])
    ensures ' ' !in t
  {
    var tokens := Split(className, ' ');
    var found := FirstCardToken(tokens);
    if found.None? then "all"
    else
      var token := tokens[found.value];
      assert forall k :: |CardPrefix| <= k < |token| ==> token[|CardPrefix|..][k - |CardPrefix|] == token[k];
      token[|CardPrefix|..]
  }

  /** The address of `handleRealmCardClick`. */
  function CategoryUrl(className: string): (url: string)
    ensures |url| >= |CategoryUrlPrefix| && url[..|CategoryUrlPrefix|] == CategoryUrlPrefix
    ensures url[|CategoryUrlPrefix|..] == GetCardType(className)
  {
    CategoryUrlPrefix + GetCardType(className)
  }

  /** A card whose class list is the base class followed by the prefixed
      category leads to that category's catalogue page; a card with only
      the base class leads to all games. */
  lemma {:induction false} CardCategoryReadsBack(t: string)
    requires ' ' !in t
    ensures GetCardType("realm-card " + CardPrefix + t) == t
    ensures GetCardType(CardPrefix + t) == t
    ensures CategoryUrl("realm-card " + CardPrefix + t) == CategoryUrlPrefix + t
    ensures GetCardType("realm-card") == "all"
  {
    var tail := CardPrefix + t;
    assert ' ' !in tail by {
      assert forall i :: 0 <= i < |CardPrefix| ==> tail[i] == CardPrefix[i];
      assert forall i :: |CardPrefix| <= i < |tail| ==> tail[i] == t[i - |CardPrefix|];
    }
    assert Split(tail, ' ') == [tail];
    assert tail[..|CardPrefix|] == CardPrefix;
    assert tail[|CardPrefix|..] == t;
    var s := "realm-card " + tail;
    assert s[10] == ' ';
    assert ' ' !in s[..10] by {
      assert s[..10] == "realm-card";
    }
    assert IndexOfChar(s, ' ') == 10;
    assert s[..10] == "realm-card" && s[11..] == tail;
    assert Split(s, ' ') == ["realm-card", tail];
    assert CardPrefix <= tail;
    assert GetCardType(s) == Split(s, ' ')[1][|CardPrefix|..];
    assert s == "realm-card " + CardPrefix + t;
    assert !(CardPrefix <= "realm-card");
    assert Split("realm-card", ' ') == ["realm-card"];
  }

  /** `validateEmail`: the regular expression alone, with no separate
      empty-string guard. */
  predicate ValidateEmail(email: string) {
    IsValidEmail(email)
  }

  /** The hero form's check accepts exactly what the regular expression
      matches. */
  lemma {:induction false} ValidateEmailIsRegex(email: string)
    ensures ValidateEmail(email) <==> RegexMatch(email)
  {
    EmailRuleMatchesRegex(email);
  }

  /** The hero's newsletter form: the input's value, whether the error
      highlight is on, and whether the button shows "Subscribed!". */
  class HeroNewsletterForm {
    var inputValue: string
    var errorHighlighted: bool
    var showsSubscribed: bool

    constructor ()
      ensures inputValue == "" && !errorHighlighted && !showsSubscribed
    {
      inputValue := "";
      errorHighlighted := false;
      showsSubscribed := false;
    }

    /** `handleNewsletterSubmission`: an address that fails the check once
        trimmed highlights the input and leaves its text alone; a valid one
        shows the subscribed button and clears the input. The highlight and
        the button are restored by timers, which are not modelled. */
    method HandleNewsletterSubmission()
      modifies this
      ensures !ValidateEmail(Trim(old(inputValue))) ==>
                inputValue == old(inputValue) && errorHighlighted && showsSubscribed == old(showsSubscribed)
      ensures ValidateEmail(Trim(old(inputValue))) ==>
                inputValue == "" && showsSubscribed && errorHighlighted == old(errorHighlighted)
    {
      var email := Trim(inputValue);
      if !ValidateEmail(email) {
        errorHighlighted := true;
        return;
      }
      showsSubscribed := true;
      inputValue := "";
    }
  }
}
