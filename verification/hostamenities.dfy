/** A host's amenity catalogue: three categories, each capped by the page,
    with an add form and per-item delete. New items' ids are passed in. */
module HostAmenities {
  import opened Wrappers
  import opened Text
  import opened Sequences

  datatype Kind = Food | Accommodation | Entertainment

  /** An offering; the price is `parseInt` of the typed text (`None` is NaN). */
  datatype Offering = Offering(id: int, name: string, description: string, price: Option<int>)

  datatype Catalogue = Catalogue(food: seq<Offering>, accommodation: seq<Offering>, entertainment: seq<Offering>) {
    function Items(k: Kind): seq<Offering> {
      match k
      case Food => food
      case Accommodation => accommodation
      case Entertainment => entertainment
    }

    /** `{ ...prev, [k]: items }`. */
    function With(k: Kind, items: seq<Offering>): (r: Catalogue)
      ensures r.Items(k) == items
      ensures forall j: Kind :: j != k ==> r.Items(j) == Items(j)
    {
      match k
      case Food => this.(food := items)
      case Accommodation => this.(accommodation := items)
      case Entertainment => this.(entertainment := items)
    }
  }

  /** The page's `maxItems` per category. */
  function MaxItems(k: Kind): nat {
    match k
    case Food => 3
    case Accommodation => 2
    case Entertainment => 2
  }

  const InitialCatalogue := Catalogue(
    [Offering(1, "South Indian Breakfast", "Dosa, Idli, Vada", Some(80)),
     Offering(2, "Local Thali", "Traditional meal with rice, dal, vegetables", Some(120))],
    [Offering(1, "Budget Room", "Clean AC room with basic amenities", Some(800))],
    [])

  datatype Form = Form(name: string, description: string, price: string)

  const BlankForm := Form("", "", "")

  /** The page: the catalogue, which category's add form is open (if any)
      and the form's text. */
  datatype Page = Page(catalogue: Catalogue, formFor: Option<Kind>, form: Form)

  const InitialPage := Page(InitialCatalogue, None, BlankForm)

  predicate FormComplete(f: Form) {
    f.name != "" && f.description != "" && f.price != ""
  }

  /** `handleAddAmenity(k)`: with name, description and price filled in,
      appends one offering to category `k` alone, then clears and closes the
      form. With any field empty nothing changes. The cap is not checked. */
  function HandleAdd(p: Page, k: Kind, newId: int): (r: Page)
    ensures !FormComplete(p.form) ==> r == p
    ensures FormComplete(p.form) ==>
              && r.catalogue.Items(k) == p.catalogue.Items(k) + [Offering(newId, p.form.name, p.form.description, ParseInt(p.form.price))]
              && r.form == BlankForm && r.formFor.None?
    ensures forall j: Kind :: j != k ==> r.catalogue.Items(j) == p.catalogue.Items(j)
  {
    if !FormComplete(p.form) then p
    else
      var item := Offering(newId, p.form.name, p.form.description, ParseInt(p.form.price));
      Page(p.catalogue.With(k, p.catalogue.Items(k) + [item]), None, BlankForm)
  }

  /** `handleDeleteAmenity(k, id)`: removes the offerings of category `k`
      with this id, keeping the others in order; other categories untouched. */
  function HandleDelete(c: Catalogue, k: Kind, id: int): (r: Catalogue)
    ensures forall i :: 0 <= i < |r.Items(k)| ==> r.Items(k)[i].id != id && r.Items(k)[i] in c.Items(k)
    ensures forall i :: 0 <= i < |c.Items(k)| && c.Items(k)[i].id != id ==> c.Items(k)[i] in r.Items(k)
    ensures IsSubsequence(r.Items(k), c.Items(k))
    ensures forall j: Kind :: j != k ==> r.Items(j) == c.Items(j)
  {
    FilterIsSubsequence(c.Items(k), (o: Offering) => o.id != id);
    c.With(k, Filter(c.Items(k), (o: Offering) => o.id != id))
  }

  // ---------------------------------------------------------------------
  // The page's controls

  /** Category `k` shows its add button or form only while below its cap. */
  predicate HasRoom(c: Catalogue, k: Kind) {
    |c.Items(k)| < MaxItems(k)
  }

  /** The add form of `k` is on screen. */
  predicate FormShown(p: Page, k: Kind) {
    HasRoom(p.catalogue, k) && p.formFor == Some(k)
  }

  datatype Event =
    | OpenForm(kind: Kind)
    | CancelForm
    | TypeName(text: string)
    | TypeDescription(text: string)
    | TypePrice(text: string)
    | Save(kind: Kind, newId: int)
    | Remove(kind: Kind, id: int)

  /** One interaction; a control that is not on screen does nothing. */
  function Dispatch(p: Page, e: Event): (r: Page)
    ensures e.Remove? ==> r == p.(catalogue := HandleDelete(p.catalogue, e.kind, e.id))
    ensures e.Save? && !FormShown(p, e.kind) ==> r == p
    ensures e.OpenForm? && !HasRoom(p.catalogue, e.kind) ==> r == p
  {
    match e
    case OpenForm(k) => if HasRoom(p.catalogue, k) then p.(formFor := Some(k)) else p
    case CancelForm => if p.formFor.Some? && FormShown(p, p.formFor.value) then p.(formFor := None) else p
    case TypeName(s) => if p.formFor.Some? && FormShown(p, p.formFor.value) then p.(form := p.form.(name := s)) else p
    case TypeDescription(s) => if p.formFor.Some? && FormShown(p, p.formFor.value) then p.(form := p.form.(description := s)) else p
    case TypePrice(s) => if p.formFor.Some? && FormShown(p, p.formFor.value) then p.(form := p.form.(price := s)) else p
    case Save(k, id) => if FormShown(p, k) then HandleAdd(p, k, id) else p
    case Remove(k, id) => p.(catalogue := HandleDelete(p.catalogue, k, id))
  }

  function Run(p: Page, events: seq<Event>): Page
    decreases |events|
  {
    if |events| == 0 then p else Run(Dispatch(p, events[0]), events[1..])
  }

  /** Every category within its cap. */
  predicate WithinCaps(c: Catalogue) {
    forall k: Kind :: |c.Items(k)| <= MaxItems(k)
  }

  lemma InitialWithinCaps()
    ensures WithinCaps(InitialCatalogue)
  {
    forall k: Kind
      ensures |InitialCatalogue.Items(k)| <= MaxItems(k)
    {
      match k
      case Food =>
      case Accommodation =>
      case Entertainment =>
    }
  }

  /** One interaction keeps every category within its cap. */
  lemma DispatchWithinCaps(p: Page, e: Event)
    requires WithinCaps(p.catalogue)
    ensures WithinCaps(Dispatch(p, e).catalogue)
  {
    var r := Dispatch(p, e);
    forall k: Kind
      ensures |r.catalogue.Items(k)| <= MaxItems(k)
    {
      match e
      case Remove(j, id) =>
        FilterIsSubsequence(p.catalogue.Items(j), (o: Offering) => o.id != id);
      case _ =>
    }
  }

  /** Whatever the user does, no category ever exceeds its cap. */
  lemma {:induction false} RunWithinCaps(p: Page, events: seq<Event>)
    requires WithinCaps(p.catalogue)
    ensures WithinCaps(Run(p, events).catalogue)
    decreases |events|
  {
    if |events| > 0 {
      DispatchWithinCaps(p, events[0]);
      RunWithinCaps(Dispatch(p, events[0]), events[1..]);
    }
  }

  /** The cap lives in the page alone: called on a full category,
      `handleAddAmenity` still appends and takes it past its cap. */
  lemma AddIgnoresCap(p: Page, k: Kind, newId: int)
    requires FormComplete(p.form) && |p.catalogue.Items(k)| == MaxItems(k)
    ensures |HandleAdd(p, k, newId).catalogue.Items(k)| == MaxItems(k) + 1
  {
  }

  /** Deleting the same id twice is deleting it once. */
  lemma DeleteIdempotent(c: Catalogue, k: Kind, id: int)
    ensures HandleDelete(HandleDelete(c, k, id), k, id) == HandleDelete(c, k, id)
  {
    FilterIdempotent(c.Items(k), (o: Offering) => o.id != id);
  }

  /** Adding an offering and then deleting its (fresh) id restores the catalogue. */
  lemma AddThenDelete(p: Page, k: Kind, newId: int)
    requires FormComplete(p.form)
    requires forall i :: 0 <= i < |p.catalogue.Items(k)| ==> p.catalogue.Items(k)[i].id != newId
    ensures HandleDelete(HandleAdd(p, k, newId).catalogue, k, newId) == p.catalogue
  {
    var items := p.catalogue.Items(k);
    var item := Offering(newId, p.form.name, p.form.description, ParseInt(p.form.price));
    var keep := (o: Offering) => o.id != newId;
    FilterAppend(items, [item], keep);
    FilterKeepsAll(items, keep);
    assert Filter([item], keep) == [];
    var r := HandleDelete(HandleAdd(p, k, newId).catalogue, k, newId);
    assert forall j: Kind :: r.Items(j) == p.catalogue.Items(j);
  }
}
