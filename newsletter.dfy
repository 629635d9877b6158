/** The "Stay in the Loop" form of scripts/newsletter-handler.js
    (`newsletterHandler`): the trimmed address is checked, saved once into
    the `newsletterSubscriptions` list in local storage, and the form is
    locked in its subscribed state. */
module Newsletter {
  import opened Text
  import opened Email

  /** What `JSON.parse(localStorage.getItem("newsletterSubscriptions"))`
      gives: nothing usable that `|| []` replaces (the item is absent, or
      holds a falsy JSON value such as `null`); a list of addresses; or a
      value on which the save throws (text that is not JSON, or JSON that is
      not an array), so the save is abandoned without a write. */
  datatype Stored = Missing | Subscriptions(emails: seq<string>) | Unusable

  /** The list a save starts from: `[]` for a missing item. */
  function Listed(stored: Stored): seq<string> {
    if stored.Subscriptions? then stored.emails else []
  }

  /** No address appears twice. */
  predicate Distinct(emails: seq<string>) {
    forall i, j :: 0 <= i < j < |emails| ==> emails[i] != emails[j]
  }

  /** `isValidEmail`: an empty address is refused before the regular
      expression is tried. */
  predicate IsValidSubscription(email: string) {
    email != "" && IsValidEmail(email)
  }

  /** The empty-string guard changes nothing: the check accepts exactly
      what the regular expression matches, and the empty address is not
      among those. */
  lemma {:induction false} SubscriptionCheckIsRegex(email: string)
    ensures IsValidSubscription(email) <==> RegexMatch(email)
    ensures !RegexMatch("")
  {
    EmailRuleMatchesRegex(email);
    EmailRuleMatchesRegex("");
  }

  /** The item after `saveEmail(email)`: an unusable item is left alone; an
      address already listed writes nothing; any other address is pushed
      onto the list (a fresh one when the item was missing) and written. */
  function AfterSave(stored: Stored, email: string): (r: Stored)
    ensures r.Unusable? <==> stored.Unusable?
    ensures r.Subscriptions? <==> !stored.Unusable?
    ensures r.Subscriptions? ==> email in r.emails
    ensures r.Subscriptions? ==> forall e :: e in r.emails <==> e == email || e in Listed(stored)
    ensures r.Subscriptions? ==> |Listed(stored)| <= |r.emails| <= |Listed(stored)| + 1
    ensures r.Subscriptions? ==> r.emails[..|Listed(stored)|] == Listed(stored)
    ensures stored.Subscriptions? && email in stored.emails ==> r == stored
  {
    if stored.Unusable? then stored
    else if email in Listed(stored) then stored
    else Subscriptions(Listed(stored) + [email])
  }

  /** Saving keeps the list free of duplicates. */
  lemma {:induction false} SaveKeepsDistinct(stored: Stored, email: string)
    requires Distinct(Listed(stored))
    ensures Distinct(Listed(AfterSave(stored, email)))
  {
    var before := Listed(stored);
    var after := Listed(AfterSave(stored, email));
    if !stored.Unusable? && email !in before {
      forall i, j | 0 <= i < j < |after| ensures after[i] != after[j] {
        if j == |before| {
          assert after[i] == before[i];
        } else {
          assert after[i] == before[i] && after[j] == before[j];
        }
      }
    }
  }

  /** Saving the same address twice is the same as saving it once. */
  lemma {:induction false} SaveIdempotent(stored: Stored, email: string)
    ensures AfterSave(AfterSave(stored, email), email) == AfterSave(stored, email)
  {
  }

  /** The form and the storage item it writes to. */
  class NewsletterForm {
    /** The storage item `newsletterSubscriptions`. */
    var stored: Stored
    /** The e-mail input's value. */
    var inputValue: string
    var inputReadOnly: bool
    var buttonDisabled: bool
    /** Whether the form carries the `subscribed` class. */
    var subscribed: bool

    constructor (stored0: Stored)
      ensures stored == stored0 && inputValue == ""
      ensures !inputReadOnly && !buttonDisabled && !subscribed
    {
      stored := stored0;
      inputValue := "";
      inputReadOnly := false;
      buttonDisabled := false;
      subscribed := false;
    }

    /** `saveEmail`. */
    method SaveEmail(email: string)
      modifies this
      ensures stored == AfterSave(old(stored), email)
      ensures inputValue == old(inputValue) && inputReadOnly == old(inputReadOnly)
      ensures buttonDisabled == old(buttonDisabled) && subscribed == old(subscribed)
    {
      if stored.Unusable? {
        return;
      }
      var subscriptions := Listed(stored);
      if email !in subscriptions {
        subscriptions := subscriptions + [email];
        stored := Subscriptions(subscriptions);
      }
    }

    /** `setSubscribedState`: the input becomes read-only and the button
        disabled, and the form is marked subscribed. */
    method SetSubscribedState()
      modifies this
      ensures inputReadOnly && buttonDisabled && subscribed
      ensures stored == old(stored) && inputValue == old(inputValue)
    {
      inputReadOnly := true;
      buttonDisabled := true;
      subscribed := true;
    }

    /** `handleSubmit`: an invalid trimmed address changes nothing at all;
        a valid one is saved and the form locked. The input keeps its text. */
    method HandleSubmit()
      modifies this
      ensures !IsValidSubscription(Trim(old(inputValue))) ==>
                stored == old(stored) && inputReadOnly == old(inputReadOnly)
                && buttonDisabled == old(buttonDisabled) && subscribed == old(subscribed)
      ensures IsValidSubscription(Trim(old(inputValue))) ==>
                stored == AfterSave(old(stored), Trim(old(inputValue)))
                && inputReadOnly && buttonDisabled && subscribed
      ensures inputValue == old(inputValue)
    {
      var email := Trim(inputValue);
      if !IsValidSubscription(email) {
        return;
      }
      SaveEmail(email);
      SetSubscribedState();
    }
  }
}
