/** The wallet page's "Add Money" modal: a quick amount or a typed amount,
    credited to the signed-in user's wallet through the session store. */
module Wallet {
  import opened Wrappers
  import opened Types
  import opened Text
  import Auth

  const QuickAmounts: seq<int> := [100, 250, 500, 1000, 2000, 5000]

  /** The modal's state: the typed text, the chosen quick amount (`null` is
      `None`) and whether the modal is open. */
  datatype TopUp = TopUp(custom: string, selected: Option<int>, open: bool)

  const InitialTopUp := TopUp("", None, false)

  /** JavaScript truthiness of `selectedAmount`: set and not zero. */
  predicate Truthy(o: Option<int>) {
    o.Some? && o.value != 0
  }

  /** `selectedAmount || parseInt(addMoneyAmount)`; `None` stands for NaN. */
  function Amount(t: TopUp): Option<int> {
    if Truthy(t.selected) then t.selected else ParseInt(t.custom)
  }

  /** The patch `{ wallet: w }`. */
  function WalletPatch(w: int): Auth.UserPatch {
    Auth.NoChange.(wallet := Some(w))
  }

  /** `handleAddMoney`: a positive amount is added to the balance (which
      counts as 0 when nobody is signed in, and then nothing is stored), the
      modal closes and both inputs clear; NaN, zero or a negative amount
      changes nothing. */
  function AddMoney(user: Option<User>, t: TopUp): (r: (Option<User>, TopUp))
    ensures var a := Amount(t);
            if a.Some? && a.value > 0 then
              && r.1 == t.(custom := "", selected := None, open := false)
              && (user.None? ==> r.0.None?)
              && (user.Some? ==> r.0 == Some(user.value.(wallet := user.value.wallet + a.value)))
            else r == (user, t)
  {
    var a := Amount(t);
    if a.Some? && a.value > 0 then
      (Auth.UpdateUser(user, WalletPatch(WalletBalance(user) + a.value)), t.(custom := "", selected := None, open := false))
    else (user, t)
  }

  /** The add button is disabled while neither a quick amount nor text is set. */
  predicate AddDisabled(t: TopUp) {
    !Truthy(t.selected) && t.custom == ""
  }

  /** What the modal lets the user do. */
  datatype Event = Open | Cancel | PickQuick(amount: int) | Type(text: string) | Submit

  /** One interaction. Controls inside the modal exist only while it is
      open; the quick buttons offer only the listed amounts. */
  function Dispatch(user: Option<User>, t: TopUp, e: Event): (r: (Option<User>, TopUp))
    ensures !e.Submit? ==> r.0 == user
    ensures e.Type? && t.open ==> r.1 == t.(custom := e.text, selected := None)
    ensures !t.open && !e.Open? ==> r == (user, t)
  {
    match e
    case Open => (user, t.(open := true))
    case Cancel => (user, if t.open then t.(open := false) else t)
    case PickQuick(a) => (user, if t.open && a in QuickAmounts then t.(selected := Some(a)) else t)
    case Type(text) => (user, if t.open then t.(custom := text, selected := None) else t)
    case Submit => if t.open && !AddDisabled(t) then AddMoney(user, t) else (user, t)
  }

  /** A disabled add button guards nothing more than `handleAddMoney` already
      refuses: with nothing chosen the amount is NaN. */
  lemma DisabledMeansNoChange(user: Option<User>, t: TopUp)
    requires AddDisabled(t)
    ensures AddMoney(user, t) == (user, t)
  {
    assert Amount(t) == ParseInt("");
  }

  /** The balance never goes down, and goes up exactly when a positive amount
      is credited to a signed-in user. */
  lemma AddMoneyNeverLowers(user: Option<User>, t: TopUp)
    ensures WalletBalance(AddMoney(user, t).0) >= WalletBalance(user)
    ensures user.Some? && Amount(t).Some? && Amount(t).value > 0 ==>
              WalletBalance(AddMoney(user, t).0) == WalletBalance(user) + Amount(t).value
  {
  }

  /** Open, pick a quick amount, add: the wallet grows by that amount and
      the modal is back to its initial state. */
  lemma QuickTopUp(u: User, a: int)
    requires a in QuickAmounts
    ensures var s1 := Dispatch(Some(u), InitialTopUp, Open);
            var s2 := Dispatch(s1.0, s1.1, PickQuick(a));
            Dispatch(s2.0, s2.1, Submit) == (Some(u.(wallet := u.wallet + a)), InitialTopUp)
  {
  }

  /** Typing the decimal digits of a positive amount and adding credits
      exactly that amount. */
  lemma TypedTopUp(u: User, n: nat)
    requires n > 0
    ensures var s1 := Dispatch(Some(u), InitialTopUp, Open);
            var s2 := Dispatch(s1.0, s1.1, Type(DecimalString(n)));
            Dispatch(s2.0, s2.1, Submit) == (Some(u.(wallet := u.wallet + n)), InitialTopUp)
  {
    ParseIntDecimal(n);
  }

  /** Typing a minus sign before digits is refused and leaves everything as it was. */
  lemma NegativeTypedRefused(u: User, t: TopUp, text: string)
    requires |text| > 1 && text[0] == '-' && AllDigitsOf(text[1..], 10)
    requires t.open
    ensures var s := Dispatch(Some(u), t, Type(text));
            Dispatch(s.0, s.1, Submit) == s
  {
    ParseIntMinusDigits(text);
  }

  /** A chosen quick amount is always one of the listed amounts. */
  predicate WellFormed(t: TopUp) {
    t.selected.None? || t.selected.value in QuickAmounts
  }

  lemma DispatchPreservesWellFormed(user: Option<User>, t: TopUp, e: Event)
    requires WellFormed(t)
    ensures WellFormed(Dispatch(user, t, e).1)
  {
  }
}
