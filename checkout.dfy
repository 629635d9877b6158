/** The checkout page of scripts/checkout-manager.js (`checkoutManager`):
    the two-step wizard, the contact-form gate, the order totals, clearing
    the cart after an order, and the phone-number formatter. */
module Checkout {
  import opened Wrappers
  import opened Text
  import opened Email
  import opened CartManagement
  import opened CartPage

  // ---------------------------------------------------------------------
  // Progress indicator (updateProgressIndicator)

  datatype StepStatus = Completed | Active | Upcoming

  /** The class a progress step gets: steps before the current one are
      completed, the current one is active, later ones get neither. */
  function ProgressStatus(stepNumber: int, currentStep: int): (s: StepStatus)
    ensures s == Completed <==> stepNumber < currentStep
    ensures s == Active <==> stepNumber == currentStep
  {
    if stepNumber < currentStep then Completed
    else if stepNumber == currentStep then Active
    else Upcoming
  }

  /** The statuses of steps 1..n, in order (the `forEach` over the steps). */
  function ProgressIndicator(n: nat, currentStep: int): (r: seq<StepStatus>)
    ensures |r| == n
    ensures forall i :: 0 <= i < n ==> r[i] == ProgressStatus(i + 1, currentStep)
  {
    if n == 0 then [] else ProgressIndicator(n - 1, currentStep) + [ProgressStatus(n, currentStep)]
  }

  /** With the current step in range, exactly one step is active and the
      steps before it are the completed ones. */
  lemma {:induction false} ProgressHasOneActive(n: nat, currentStep: int)
    requires 1 <= currentStep <= n
    ensures var r := ProgressIndicator(n, currentStep);
            && r[currentStep - 1] == Active
            && (forall i :: 0 <= i < n && i != currentStep - 1 ==> r[i] != Active)
            && (forall i :: 0 <= i < n ==> (r[i] == Completed <==> i < currentStep - 1))
  {
  }

  // ---------------------------------------------------------------------
  // Contact information (handleContactSubmit)

  /** The form's entries as a record, every value trimmed; a later entry with
      the same name overwrites an earlier one. */
  function ContactRecord(entries: seq<(string, string)>): (r: map<string, string>)
    ensures r.Keys == set e | e in entries :: e.0
    ensures forall k :: k in r ==> r[k] == "" || (!IsSpace(r[k][0]) && !IsSpace(r[k][|r[k]| - 1]))
    ensures forall k :: k in r ==> LastEntryValue(entries, k, r[k])
  {
    if entries == [] then map[]
    else
      var front := entries[..|entries| - 1];
      var last := entries[|entries| - 1];
      assert entries == front + [last];
      LastEntryWins(front, last, ContactRecord(front));
      ContactRecord(front)[last.0 := Trim(last.1)]
  }

  /** Entry `i` has name `k` and trimmed value `v`, and no later entry has
      that name. */
  predicate LastEntryAt(entries: seq<(string, string)>, k: string, v: string, i: int) {
    && 0 <= i < |entries| && entries[i].0 == k && v == Trim(entries[i].1)
    && forall j :: i < j < |entries| ==> entries[j].0 != k
  }

  /** `v` is the trimmed value of the last entry named `k`. */
  ghost predicate LastEntryValue(entries: seq<(string, string)>, k: string, v: string) {
    exists i :: LastEntryAt(entries, k, v, i)
  }

  /** Writing one more entry into a record of earlier entries: the new
      entry's name now holds its trimmed value, and every other name keeps
      the value of its last earlier entry. */
  lemma {:induction false} LastEntryWins(front: seq<(string, string)>, last: (string, string), m: map<string, string>)
    requires forall k :: k in m ==> LastEntryValue(front, k, m[k])
    ensures var r := m[last.0 := Trim(last.1)];
            forall k :: k in r ==> LastEntryValue(front + [last], k, r[k])
  {
    var entries := front + [last];
    var r := m[last.0 := Trim(last.1)];
    forall k | k in r ensures LastEntryValue(entries, k, r[k]) {
      if k == last.0 {
        assert LastEntryAt(entries, k, r[k], |entries| - 1);
      } else {
        var i :| LastEntryAt(front, k, r[k], i);
        assert LastEntryAt(entries, k, r[k], i);
      }
    }
  }

  /** `!contactInfo[field]`: the field is absent or empty. */
  predicate Missing(info: map<string, string>, field: string) {
    field !in info || info[field] == ""
  }

  /** Whether the contact step accepts the form, and the message it shows
      when it does not. */
  function ContactCheck(info: map<string, string>): (error: Option<string>)
    ensures error.None? <==> !Missing(info, "name") && !Missing(info, "email") && IsValidEmail(info["email"])
  {
    if Missing(info, "name") || Missing(info, "email") then Some("Please fill in all required fields.")
    else if !IsValidEmail(info["email"]) then Some("Please enter a valid email address.")
    else None
  }

  // ---------------------------------------------------------------------
  // Phone number formatting (formatPhoneNumber)

  /** `value.replace(/\D/g, "")`: the digits of the input, in order. */
  function DigitsOf(s: string): (r: string)
    ensures AllDigits(r) && |r| <= |s|
  {
    if s == [] then []
    else (if IsDigit(s[0]) then [s[0]] else []) + DigitsOf(s[1..])
  }

  lemma {:induction false} DigitsOfAppend(a: string, b: string)
    ensures DigitsOf(a + b) == DigitsOf(a) + DigitsOf(b)
  {
    if a == [] {
      assert a + b == b;
    } else {
      var ab := a + b;
      assert ab[0] == a[0] && ab[1..] == a[1..] + b;
      DigitsOfAppend(a[1..], b);
      var h := if IsDigit(a[0]) then [a[0]] else [];
      assert DigitsOf(ab) == h + DigitsOf(ab[1..]);
      assert DigitsOf(a) == h + DigitsOf(a[1..]);
    }
  }

  lemma {:induction false} DigitsOfDigits(s: string)
    requires AllDigits(s)
    ensures DigitsOf(s) == s
  {
    if s != [] {
      DigitsOfDigits(s[1..]);
    }
  }

  lemma {:induction false} DigitsOfNone(p: string)
    requires forall i :: 0 <= i < |p| ==> !IsDigit(p[i])
    ensures DigitsOf(p) == []
  {
    if p != [] {
      DigitsOfNone(p[1..]);
    }
  }

  /** Appending punctuation and then digits adds exactly those digits. */
  lemma {:induction false} AppendPunctuationDigits(s: string, p: string, x: string)
    requires forall i :: 0 <= i < |p| ==> !IsDigit(p[i])
    requires AllDigits(x)
    ensures DigitsOf(s + p + x) == DigitsOf(s) + x
  {
    DigitsOfAppend(s + p, x);
    DigitsOfAppend(s, p);
    DigitsOfNone(p);
    DigitsOfDigits(x);
    assert DigitsOf(s) + [] == DigitsOf(s);
  }

  /** The formatted value: ten or more digits become `(ddd) ddd-dddd` followed
      by the remaining digits; three to five become `(ddd) ` and the rest;
      fewer than three and six to nine stay bare digits (the six-digit rule's
      pattern needs ten digits and otherwise does not match). */
  function FormatPhoneNumber(value: string): (r: string)
    ensures var d := DigitsOf(value);
      && (|d| < 3 || 6 <= |d| < 10 ==> r == d)
      && (3 <= |d| < 6 ==> r == "(" + d[..3] + ") " + d[3..])
      && (|d| >= 10 ==> r == "(" + d[..3] + ") " + d[3..6] + "-" + d[6..10] + d[10..])
  {
    var d := DigitsOf(value);
    if |d| >= 6 then
      if |d| >= 10 then "(" + d[..3] + ") " + d[3..6] + "-" + d[6..10] + d[10..] else d
    else if |d| >= 3 then "(" + d[..3] + ") " + d[3..]
    else d
  }

  /** The formatter only adds `(`, `)`, space and `-`: the digits of its
      result are exactly the digits of its input, in order. */
  lemma {:induction false} FormatKeepsDigits(value: string)
    ensures DigitsOf(FormatPhoneNumber(value)) == DigitsOf(value)
  {
    var d := DigitsOf(value);
    if |d| >= 10 {
      FullNumberDigits(d);
    } else if 3 <= |d| < 6 {
      AreaCodeDigits(d);
    } else {
      DigitsOfDigits(d);
    }
  }

  /** The ten-digit layout `(ddd) ddd-dddd` followed by any extra digits. */
  lemma {:induction false} FullNumberDigits(d: string)
    requires AllDigits(d) && |d| >= 10
    ensures DigitsOf("(" + d[..3] + ") " + d[3..6] + "-" + d[6..10] + d[10..]) == d
  {
    var a, b, c, e := d[..3], d[3..6], d[6..10], d[10..];
    AppendPunctuationDigits([], "(", a);
    assert [] + "(" + a == "(" + a;
    AppendPunctuationDigits("(" + a, ") ", b);
    AppendPunctuationDigits("(" + a + ") " + b, "-", c);
    var s := "(" + a + ") " + b + "-" + c;
    AppendPunctuationDigits(s, "", e);
    assert s + "" + e == s + e;
    assert a + b + c + e == d;
  }

  /** The short layout `(ddd) ` followed by the remaining digits. */
  lemma {:induction false} AreaCodeDigits(d: string)
    requires AllDigits(d) && |d| >= 3
    ensures DigitsOf("(" + d[..3] + ") " + d[3..]) == d
  {
    var a, b := d[..3], d[3..];
    AppendPunctuationDigits([], "(", a);
    assert [] + "(" + a == "(" + a;
    AppendPunctuationDigits("(" + a, ") ", b);
    assert a + b == d;
  }

  /** Formatting an already formatted number changes nothing, because the
      result depends only on the digits. */
  lemma {:induction false} FormatIdempotent(value: string)
    ensures FormatPhoneNumber(FormatPhoneNumber(value)) == FormatPhoneNumber(value)
  {
    FormatKeepsDigits(value);
  }

  // ---------------------------------------------------------------------
  // The page state (`currentState`)

  class CheckoutState {
    var currentStep: int
    const totalSteps: int
    var cartItems: seq<CartLine>
    var contactInfo: map<string, string>
    var orderSummary: Totals

    constructor ()
      ensures currentStep == 1 && totalSteps == 2 && cartItems == [] && contactInfo == map[]
      ensures orderSummary == Totals(0.0, 0.0, 0.0)
    {
      currentStep := 1;
      totalSteps := 2;
      cartItems := [];
      contactInfo := map[];
      orderSummary := Totals(0.0, 0.0, 0.0);
    }

    /** The step counter is within the wizard. */
    predicate InRange()
      reads this
    {
      1 <= currentStep <= totalSteps
    }

    /** `loadCartItems`: the stored cart (empty when missing); an empty cart
        sends the visitor back to the cart page. */
    method LoadCartItems(slot: Option<seq<CartLine>>) returns (redirect: bool)
      modifies this
      ensures cartItems == ReadCart(slot)
      ensures redirect <==> cartItems == []
      ensures currentStep == old(currentStep) && contactInfo == old(contactInfo) && orderSummary == old(orderSummary)
    {
      cartItems := ReadCart(slot);
      redirect := |cartItems| == 0;
    }

    /** `updateOrderSummary`. */
    method UpdateOrderSummary()
      modifies this
      ensures orderSummary == OrderTotals(cartItems)
      ensures orderSummary.total == orderSummary.subtotal + TaxRate * orderSummary.subtotal
      ensures currentStep == old(currentStep) && cartItems == old(cartItems) && contactInfo == old(contactInfo)
    {
      orderSummary := OrderTotals(cartItems);
    }

    /** `nextStep`: advances only below the last step. */
    method NextStep()
      modifies this
      ensures currentStep == if old(currentStep) < totalSteps then old(currentStep) + 1 else old(currentStep)
      ensures old(InRange()) ==> InRange()
      ensures cartItems == old(cartItems) && contactInfo == old(contactInfo) && orderSummary == old(orderSummary)
    {
      if currentStep < totalSteps {
        currentStep := currentStep + 1;
      }
    }

    /** `previousStep`: goes back only above the first step. */
    method PreviousStep()
      modifies this
      ensures currentStep == if old(currentStep) > 1 then old(currentStep) - 1 else old(currentStep)
      ensures old(InRange()) ==> InRange()
      ensures cartItems == old(cartItems) && contactInfo == old(contactInfo) && orderSummary == old(orderSummary)
    {
      if currentStep > 1 {
        currentStep := currentStep - 1;
      }
    }

    /** `editStep`: jumps to any step, with no range check. */
    method EditStep(step: int)
      modifies this
      ensures currentStep == step
      ensures cartItems == old(cartItems) && contactInfo == old(contactInfo) && orderSummary == old(orderSummary)
    {
      currentStep := step;
    }

    /** `handleContactSubmit`: the entries are trimmed into a record; a
        missing name or e-mail, or an invalid e-mail, shows an error and
        changes nothing; otherwise the record is kept and the wizard moves
        on one step. */
    method HandleContactSubmit(entries: seq<(string, string)>) returns (error: Option<string>)
      modifies this
      ensures error == ContactCheck(ContactRecord(entries))
      ensures error.Some? ==> currentStep == old(currentStep) && contactInfo == old(contactInfo)
      ensures error.None? ==> contactInfo == ContactRecord(entries)
      ensures error.None? ==> currentStep == if old(currentStep) < totalSteps then old(currentStep) + 1 else old(currentStep)
      ensures cartItems == old(cartItems) && orderSummary == old(orderSummary)
    {
      var info: map<string, string> := map[];
      for i := 0 to |entries|
        invariant info == ContactRecord(entries[..i])
      {
        assert entries[..i + 1][..i] == entries[..i];
        info := info[entries[i].0 := Trim(entries[i].1)];
      }
      assert entries[..|entries|] == entries;
      if Missing(info, "name") || Missing(info, "email") {
        return Some("Please fill in all required fields.");
      }
      if !IsValidEmail(info["email"]) {
        return Some("Please enter a valid email address.");
      }
      contactInfo := info;
      NextStep();
      error := None;
    }

    /** `clearCart` after a placed order: the stored cart is removed and the
        page's copy emptied, so the store then reads an empty cart. */
    method ClearCart(store: CartStore)
      modifies this, store
      ensures store.slot == None && store.Items() == []
      ensures cartItems == []
      ensures currentStep == old(currentStep) && contactInfo == old(contactInfo) && orderSummary == old(orderSummary)
    {
      store.slot := None;
      cartItems := [];
    }
  }
}
