/** The saved payment-method list: adding a card or a UPI id, choosing the
    default and deleting an entry. New entries' ids are passed in. */
module PaymentMethods {
  import opened Wrappers
  import opened Text
  import opened Sequences

  datatype Kind = Card | Upi

  /** A saved method; only cards carry an expiry. */
  datatype SavedMethod = SavedMethod(
    id: string,
    kind: Kind,
    name: string,
    details: string,
    expiry: Option<string>,
    isDefault: bool,
    provider: string)

  const InitialMethods: seq<SavedMethod> := [
    SavedMethod("1", Card, "HDFC Credit Card", "**** **** **** 1234", Some("12/26"), true, "visa"),
    SavedMethod("2", Upi, "Google Pay", "user@okaxis", None, false, "gpay"),
    SavedMethod("3", Card, "SBI Debit Card", "**** **** **** 5678", Some("08/25"), false, "mastercard")
  ]

  datatype CardForm = CardForm(number: string, name: string, expiry: string, cvv: string)
  datatype UpiForm = UpiForm(id: string, provider: string)

  const BlankCard := CardForm("", "", "", "")
  const BlankUpi := UpiForm("", "gpay")

  /** The page: the list, the two forms and whether each modal is open. */
  datatype Page = Page(methods: seq<SavedMethod>, card: CardForm, upi: UpiForm, showAddCard: bool, showAddUpi: bool)

  const InitialPage := Page(InitialMethods, BlankCard, BlankUpi, false, false)

  // ---------------------------------------------------------------------
  // Adding

  predicate CardComplete(c: CardForm) {
    c.number != "" && c.name != "" && c.expiry != "" && c.cvv != ""
  }

  /** `details` is the mask followed by the last four characters of `number`
      (all of it when shorter). */
  predicate ShowsLastFour(details: string, number: string) {
    |details| >= 15 && details[..15] == "**** **** **** "
    && |details| - 15 == (if |number| < 4 then |number| else 4)
    && details[15..] == number[|number| - (|details| - 15)..]
  }

  /** `list + [m]`: earlier entries untouched, `m` at the end. */
  predicate AppendedTo(after: seq<SavedMethod>, before: seq<SavedMethod>, m: SavedMethod) {
    |after| == |before| + 1 && after[..|before|] == before && after[|before|] == m
  }

  /** `handleAddCard`: with every card field filled in, appends a card named
      after the holder, showing the number's last four characters, default
      exactly when the list was empty; then clears the form and closes the
      modal. With any field empty nothing changes. */
  function AddCard(p: Page, newId: string): (r: Page)
    ensures !CardComplete(p.card) ==> r == p
    ensures CardComplete(p.card) ==>
              && |r.methods| == |p.methods| + 1
              && var m := r.methods[|p.methods|];
              && AppendedTo(r.methods, p.methods, m)
              && m.id == newId && m.kind == Card && m.provider == "visa"
              && m.name == p.card.name + "'s Card" && m.expiry == Some(p.card.expiry)
              && ShowsLastFour(m.details, p.card.number)
              && (m.isDefault <==> |p.methods| == 0)
    ensures CardComplete(p.card) ==>
              r.card == BlankCard && !r.showAddCard && r.upi == p.upi && r.showAddUpi == p.showAddUpi
  {
    if !CardComplete(p.card) then p
    else
      var m := SavedMethod(newId, Card, p.card.name + "'s Card", "**** **** **** " + LastChars(p.card.number, 4),
                           Some(p.card.expiry), |p.methods| == 0, "visa");
      p.(methods := p.methods + [m], card := BlankCard, showAddCard := false)
  }

  /** The display name of a UPI provider; anything unrecognised is Paytm. */
  function ProviderName(provider: string): (r: string)
    ensures r in {"Google Pay", "PhonePe", "Paytm"}
    ensures r == "Google Pay" <==> provider == "gpay"
    ensures r == "PhonePe" <==> provider == "phonepe"
  {
    if provider == "gpay" then "Google Pay" else if provider == "phonepe" then "PhonePe" else "Paytm"
  }

  /** `handleAddUPI`: with a UPI id entered, appends it under its provider's
      name, default exactly when the list was empty; then resets the form to
      Google Pay and closes the modal. Without an id nothing changes. */
  function AddUpi(p: Page, newId: string): (r: Page)
    ensures p.upi.id == "" ==> r == p
    ensures p.upi.id != "" ==>
              && |r.methods| == |p.methods| + 1
              && var m := r.methods[|p.methods|];
              && AppendedTo(r.methods, p.methods, m)
              && m.id == newId && m.kind == Upi && m.expiry.None?
              && m.name == ProviderName(p.upi.provider) && m.details == p.upi.id && m.provider == p.upi.provider
              && (m.isDefault <==> |p.methods| == 0)
    ensures p.upi.id != "" ==>
              r.upi == BlankUpi && !r.showAddUpi && r.card == p.card && r.showAddCard == p.showAddCard
  {
    if p.upi.id == "" then p
    else
      var m := SavedMethod(newId, Upi, ProviderName(p.upi.provider), p.upi.id, None, |p.methods| == 0, p.upi.provider);
      p.(methods := p.methods + [m], upi := BlankUpi, showAddUpi := false)
  }

  // ---------------------------------------------------------------------
  // Default and delete

  /** `handleSetDefault(id)`: every entry keeps its fields, and is the default
      exactly when its id is `id`. */
  function SetDefault(methods: seq<SavedMethod>, id: string): (r: seq<SavedMethod>)
    ensures |r| == |methods|
    ensures forall i :: 0 <= i < |r| ==> r[i].isDefault == (methods[i].id == id)
    ensures forall i :: 0 <= i < |r| ==> r[i].(isDefault := methods[i].isDefault) == methods[i]
  {
    if |methods| == 0 then []
    else [methods[0].(isDefault := methods[0].id == id)] + SetDefault(methods[1..], id)
  }

  function HasId(id: string): SavedMethod -> bool {
    (m: SavedMethod) => m.id == id
  }

  /** `handleDelete(id)`: the entries with another id, in their order. */
  function Delete(methods: seq<SavedMethod>, id: string): (r: seq<SavedMethod>)
    ensures forall i :: 0 <= i < |r| ==> r[i].id != id && r[i] in methods
    ensures forall i :: 0 <= i < |methods| && methods[i].id != id ==> methods[i] in r
    ensures IsSubsequence(r, methods)
  {
    FilterIsSubsequence(methods, (m: SavedMethod) => m.id != id);
    Filter(methods, (m: SavedMethod) => m.id != id)
  }

  // ---------------------------------------------------------------------
  // The list invariant: distinct ids and at most one default

  predicate IsDefault(m: SavedMethod) {
    m.isDefault
  }

  predicate UniqueIds(methods: seq<SavedMethod>) {
    forall i, j :: 0 <= i < j < |methods| ==> methods[i].id != methods[j].id
  }

  function Defaults(methods: seq<SavedMethod>): nat {
    Count(methods, IsDefault)
  }

  predicate Consistent(methods: seq<SavedMethod>) {
    UniqueIds(methods) && Defaults(methods) <= 1
  }

  function Ids(methods: seq<SavedMethod>): set<string> {
    set i | 0 <= i < |methods| :: methods[i].id
  }

  /** The page starts with one default and distinct ids. */
  lemma InitialConsistent()
    ensures Consistent(InitialMethods) && Defaults(InitialMethods) == 1
  {
  }

  /** Choosing a default among distinct ids leaves exactly that entry default. */
  lemma SetDefaultExactlyOne(methods: seq<SavedMethod>, id: string, k: nat)
    requires UniqueIds(methods)
    requires k < |methods| && methods[k].id == id
    ensures var r := SetDefault(methods, id);
            r[k].isDefault && forall j :: 0 <= j < |r| && r[j].isDefault ==> j == k
  {
  }

  /** Choosing the same default again changes nothing. */
  lemma SetDefaultIdempotent(methods: seq<SavedMethod>, id: string)
    ensures SetDefault(SetDefault(methods, id), id) == SetDefault(methods, id)
  {
    var r := SetDefault(methods, id);
    var rr := SetDefault(r, id);
    assert forall i :: 0 <= i < |r| ==> rr[i] == r[i] by {
      forall i | 0 <= i < |r|
        ensures rr[i] == r[i]
      {
        assert rr[i].(isDefault := r[i].isDefault) == r[i];
      }
    }
  }

  /** Deleting never promotes an entry: nothing is default that was not before. */
  lemma DeleteNeverPromotes(methods: seq<SavedMethod>, id: string)
    ensures Defaults(Delete(methods, id)) <= Defaults(methods)
  {
    CountFilter(methods, IsDefault, (m: SavedMethod) => m.id != id);
  }

  /** Deleting the default of a consistent list leaves no default at all. */
  lemma DeletingDefaultLeavesNone(methods: seq<SavedMethod>, k: nat)
    requires Consistent(methods)
    requires k < |methods| && methods[k].isDefault
    ensures var r := Delete(methods, methods[k].id);
            forall i :: 0 <= i < |r| ==> !r[i].isDefault
  {
    var id := methods[k].id;
    CountFilterDrops(methods, IsDefault, (m: SavedMethod) => m.id != id, k);
    CountZero(Delete(methods, id), IsDefault);
  }

  /** Every operation keeps the list consistent, provided a newly added entry
      gets an id not already in use. */
  lemma AddCardKeepsConsistent(p: Page, newId: string)
    requires Consistent(p.methods) && newId !in Ids(p.methods)
    ensures Consistent(AddCard(p, newId).methods)
  {
    if CardComplete(p.card) {
      AppendKeepsConsistent(p.methods, AddCard(p, newId).methods[|p.methods|]);
    }
  }

  lemma AddUpiKeepsConsistent(p: Page, newId: string)
    requires Consistent(p.methods) && newId !in Ids(p.methods)
    ensures Consistent(AddUpi(p, newId).methods)
  {
    if p.upi.id != "" {
      AppendKeepsConsistent(p.methods, AddUpi(p, newId).methods[|p.methods|]);
    }
  }

  /** Appending a fresh entry that is default only on an empty list. */
  lemma AppendKeepsConsistent(methods: seq<SavedMethod>, m: SavedMethod)
    requires Consistent(methods) && m.id !in Ids(methods)
    requires m.isDefault <==> |methods| == 0
    ensures Consistent(methods + [m])
  {
    CountAppend(methods, [m], IsDefault);
    assert [m][1..] == [];
    var s := methods + [m];
    forall i, j | 0 <= i < j < |s|
      ensures s[i].id != s[j].id
    {
      if j == |methods| {
        assert s[i].id in Ids(methods);
      }
    }
  }

  lemma SetDefaultKeepsConsistent(methods: seq<SavedMethod>, id: string)
    requires Consistent(methods)
    ensures Consistent(SetDefault(methods, id))
  {
    var r := SetDefault(methods, id);
    CountAtMostOne(r, IsDefault);
  }

  lemma DeleteKeepsConsistent(methods: seq<SavedMethod>, id: string)
    requires Consistent(methods)
    ensures Consistent(Delete(methods, id))
  {
    DeleteNeverPromotes(methods, id);
    FilterKeepsUniqueIds(methods, (m: SavedMethod) => m.id != id);
  }

  /** Filtering a list with distinct ids keeps them distinct. */
  lemma {:induction false} FilterKeepsUniqueIds(methods: seq<SavedMethod>, keep: SavedMethod -> bool)
    requires UniqueIds(methods)
    ensures UniqueIds(Filter(methods, keep))
  {
    if |methods| > 0 {
      var tail := methods[1..];
      assert UniqueIds(tail);
      FilterKeepsUniqueIds(tail, keep);
      var r := Filter(methods, keep);
      if keep(methods[0]) {
        var rest := Filter(tail, keep);
        assert r == [methods[0]] + rest;
        forall j | 0 < j < |r|
          ensures r[0].id != r[j].id
        {
          assert r[j] == rest[j - 1];
          assert rest[j - 1] in tail;
        }
      }
    }
  }
}
