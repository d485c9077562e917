/**
 * The profile page (`pages/Profile.tsx`): the page-local wishlist, saved addresses and saved
 * cards, with the handlers that add, edit and remove them. None of this is persisted.
 */
module Profile {
  import opened Wrappers
  import opened Lists
  import opened Text
  import opened Types
  import opened CardFormat

  /** A saved address. The source casts a partially filled form to `Address`, so every field but
      the id may be missing. */
  datatype Address = Address(
    id: int,
    kind: Option<string>,
    name: Option<string>,
    line1: Option<string>,
    line2: Option<string>,
    city: Option<string>,
    state: Option<string>,
    zip: Option<string>,
    phone: Option<string>,
    isDefault: Option<bool>)

  /** The address form (`Partial<Address>`). */
  datatype AddressForm = AddressForm(
    id: Option<int>,
    kind: Option<string>,
    name: Option<string>,
    line1: Option<string>,
    line2: Option<string>,
    city: Option<string>,
    state: Option<string>,
    zip: Option<string>,
    phone: Option<string>,
    isDefault: Option<bool>)

  datatype Card = Card(id: int, kind: string, last4: string, expiry: string, holder: string)

  datatype CardForm = CardForm(number: string, expiry: string, holder: string)

  const EmptyCardForm := CardForm("", "", "")

  /** The form a new address starts from: `{ type: 'Home', default: false }`. */
  const NewAddressForm :=
    AddressForm(None, Some("Home"), None, None, None, None, None, None, None, Some(false))

  function Override<T>(base: Option<T>, over: Option<T>): (r: Option<T>)
    ensures over.Some? ==> r == over
    ensures over.None? ==> r == base
  {
    if over.Some? then over else base
  }

  /** `{ ...address, ...form }`: every field the form holds wins. */
  function Merge(address: Address, form: AddressForm): (r: Address)
    ensures r.id == (if form.id.Some? then form.id.value else address.id)
    ensures form.name.Some? ==> r.name == form.name
    ensures form.name.None? ==> r.name == address.name
    ensures form.city.Some? ==> r.city == form.city
    ensures form.city.None? ==> r.city == address.city
    ensures r.kind == Override(address.kind, form.kind)
    ensures r.line1 == Override(address.line1, form.line1)
    ensures r.line2 == Override(address.line2, form.line2)
    ensures r.state == Override(address.state, form.state)
    ensures r.zip == Override(address.zip, form.zip)
    ensures r.phone == Override(address.phone, form.phone)
    ensures r.isDefault == Override(address.isDefault, form.isDefault)
  {
    Address(
      if form.id.Some? then form.id.value else address.id,
      Override(address.kind, form.kind), Override(address.name, form.name),
      Override(address.line1, form.line1), Override(address.line2, form.line2),
      Override(address.city, form.city), Override(address.state, form.state),
      Override(address.zip, form.zip), Override(address.phone, form.phone),
      Override(address.isDefault, form.isDefault))
  }

  /** `handleEditAddress` fills the form with the address itself. */
  function FormOf(address: Address): (form: AddressForm)
    ensures form.id == Some(address.id)
    ensures NewAddress(form, address.id) == address
  {
    AddressForm(Some(address.id), address.kind, address.name, address.line1, address.line2,
      address.city, address.state, address.zip, address.phone, address.isDefault)
  }

  /** Saving an edit form nobody touched leaves the address as it was, and merging the same form
      twice is merging it once. */
  lemma MergeLaws(address: Address, form: AddressForm)
    ensures Merge(address, FormOf(address)) == address
    ensures Merge(Merge(address, form), form) == Merge(address, form)
  {
  }

  /** `{ ...form, id: Date.now() }`: a new address with the given id. */
  function NewAddress(form: AddressForm, now: int): (r: Address)
    ensures r.id == now && r.name == form.name && r.city == form.city
    ensures r == Merge(Address(now, None, None, None, None, None, None, None, None, None),
      form.(id := None))
  {
    Address(now, form.kind, form.name, form.line1, form.line2, form.city, form.state,
      form.zip, form.phone, form.isDefault)
  }

  /** The new `addresses` of `saveAddress` while editing `editing`: the form is merged into every
      address with that id. */
  function UpdateAddresses(addresses: seq<Address>, editing: Address, form: AddressForm): (r: seq<Address>)
    ensures |r| == |addresses|
    ensures forall i :: 0 <= i < |addresses| && addresses[i].id == editing.id ==> r[i] == Merge(addresses[i], form)
    ensures forall i :: 0 <= i < |addresses| && addresses[i].id != editing.id ==> r[i] == addresses[i]
  {
    Map(addresses, (a: Address) => if a.id == editing.id then Merge(a, form) else a)
  }

  /** The card that `handleAddCard` saves: always labelled Visa, the last four characters of the
      number, the holder upper-cased. */
  function NewCard(form: CardForm, now: int): (c: Card)
    ensures c.id == now && c.kind == "Visa" && c.expiry == form.expiry
    ensures |c.last4| == (if |form.number| < 4 then |form.number| else 4)
    ensures exists k :: 0 <= k <= |form.number| && form.number[..k] + c.last4 == form.number
    ensures c.holder == Upper(form.holder)
  {
    Card(now, "Visa", LastChars(form.number, 4), form.expiry, Upper(form.holder))
  }

  /** A card typed in full shows its last four digits. */
  lemma FullCardLast4(form: CardForm, now: int)
    requires AllDigits(form.number) && |form.number| == 16
    ensures NewCard(form, now).last4 == form.number[12..]
    ensures AllDigits(NewCard(form, now).last4) && |NewCard(form, now).last4| == 4
  {
  }

  /** The page's state. */
  class ProfilePage {
    var wishlist: seq<Product>
    var addresses: seq<Address>
    var cards: seq<Card>
    var showAddressModal: bool
    var editing: Option<Address>
    var addressForm: AddressForm
    var showCardModal: bool
    var cardForm: CardForm

    /** The card-number input only ever holds up to sixteen digits. */
    ghost predicate Valid()
      reads this
    {
      AllDigits(cardForm.number) && |cardForm.number| <= 16
    }

    /** The initial state: an empty wishlist, two sample addresses, two sample cards. */
    constructor (sampleAddresses: seq<Address>, sampleCards: seq<Card>)
      ensures Valid() && wishlist == [] && addresses == sampleAddresses && cards == sampleCards
      ensures !showAddressModal && editing.None? && !showCardModal && cardForm == EmptyCardForm
    {
      wishlist := [];
      addresses := sampleAddresses;
      cards := sampleCards;
      showAddressModal := false;
      editing := None;
      addressForm := AddressForm(None, None, None, None, None, None, None, None, None, None);
      showCardModal := false;
      cardForm := EmptyCardForm;
    }

    /** The effect on the store's products: with more than five products the wishlist becomes the
        second and the sixth; otherwise it is left as it was. */
    method SyncWishlist(products: seq<Product>)
      modifies this`wishlist
      ensures |products| > 5 ==> wishlist == [products[1], products[5]]
      ensures |products| <= 5 ==> wishlist == old(wishlist)
    {
      if |products| > 5 {
        wishlist := [products[1], products[5]];
      }
    }

    /** `removeFromWishlist(id)`: every product with that id goes, the rest stay in order. */
    method RemoveFromWishlist(id: string)
      modifies this`wishlist
      ensures wishlist == Filter(old(wishlist), (p: Product) => p.id != id)
      ensures forall p :: p in wishlist ==> p in old(wishlist) && p.id != id
      ensures forall p :: p in old(wishlist) && p.id != id ==> p in wishlist
    {
      var keep := (p: Product) => p.id != id;
      FilterSound(wishlist, keep);
      forall p | p in wishlist && keep(p)
        ensures p in Filter(wishlist, keep)
      {
        FilterKeepsPassing(wishlist, keep, p);
      }
      wishlist := Filter(wishlist, keep);
    }

    /** `handleEditAddress(address)`. */
    method EditAddress(address: Address)
      modifies this`editing, this`addressForm, this`showAddressModal
      ensures editing == Some(address) && addressForm == FormOf(address) && showAddressModal
    {
      editing := Some(address);
      addressForm := FormOf(address);
      showAddressModal := true;
    }

    /** `handleAddNewAddress()`. */
    method AddNewAddress()
      modifies this`editing, this`addressForm, this`showAddressModal
      ensures editing.None? && addressForm == NewAddressForm && showAddressModal
    {
      editing := None;
      addressForm := NewAddressForm;
      showAddressModal := true;
    }

    /** Cancel, or a click on the backdrop, closes the address modal and leaves the form and the
        addresses as they are. */
    method CloseAddressModal()
      requires showAddressModal
      modifies this`showAddressModal
      ensures !showAddressModal
    {
      showAddressModal := false;
    }

    /** The address inputs, each replacing one field of the form. */
    method FillAddressForm(form: AddressForm)
      requires showAddressModal
      modifies this`addressForm
      ensures addressForm == form
    {
      addressForm := form;
    }

    /** `saveAddress`: merge into the address being edited, or append a new one whose id is
        `now` (`Date.now()`); then close the modal. */
    method SaveAddress(now: int)
      requires showAddressModal
      modifies this`addresses, this`showAddressModal
      ensures editing.Some? ==> addresses == UpdateAddresses(old(addresses), editing.value, addressForm)
      ensures editing.None? ==> addresses == old(addresses) + [NewAddress(addressForm, now)]
      ensures !showAddressModal
    {
      if editing.Some? {
        addresses := UpdateAddresses(addresses, editing.value, addressForm);
      } else {
        addresses := addresses + [NewAddress(addressForm, now)];
      }
      showAddressModal := false;
    }

    /** `handleDeleteAddress(id)`: the addresses with that id go when the confirmation is
        accepted. */
    method DeleteAddress(id: int, confirmed: bool)
      modifies this`addresses
      ensures confirmed ==> addresses == Filter(old(addresses), (a: Address) => a.id != id)
      ensures confirmed ==> forall a :: a in addresses ==> a.id != id
      ensures !confirmed ==> addresses == old(addresses)
    {
      if confirmed {
        FilterSound(addresses, (a: Address) => a.id != id);
        addresses := Filter(addresses, (a: Address) => a.id != id);
      }
    }

    /** "Add Card" opens the card modal; the form keeps whatever it held. */
    method OpenCardModal()
      modifies this`showCardModal
      ensures showCardModal
    {
      showCardModal := true;
    }

    /** Cancel, or a click on the backdrop, closes the card modal without saving; the form is not
        reset. */
    method CloseCardModal()
      requires showCardModal
      modifies this`showCardModal
      ensures !showCardModal
    {
      showCardModal := false;
    }

    /** The card-number input: `value.replace(/\D/g, '').slice(0, 16)`. */
    method TypeCardNumber(text: string)
      requires Valid() && showCardModal
      modifies this`cardForm
      ensures Valid() && cardForm == old(cardForm).(number := DigitsUpTo(text, 16))
    {
      cardForm := cardForm.(number := DigitsUpTo(text, 16));
    }

    /** The holder and expiry inputs keep what was typed. */
    method TypeCardDetails(holder: string, expiry: string)
      requires Valid() && showCardModal
      modifies this`cardForm
      ensures Valid() && cardForm == old(cardForm).(holder := holder, expiry := expiry)
    {
      cardForm := cardForm.(holder := holder, expiry := expiry);
    }

    /** `handleAddCard`: append the new card, close the modal and reset the form. The last four
        characters saved are digits. */
    method AddCard(now: int)
      requires Valid() && showCardModal
      modifies this`cards, this`showCardModal, this`cardForm
      ensures Valid() && cards == old(cards) + [NewCard(old(cardForm), now)]
      ensures AllDigits(NewCard(old(cardForm), now).last4)
      ensures !showCardModal && cardForm == EmptyCardForm
    {
      var card := NewCard(cardForm, now);
      assert AllDigits(card.last4) by {
        var k :| 0 <= k <= |cardForm.number| && cardForm.number[..k] + card.last4 == cardForm.number;
        assert forall i :: 0 <= i < |card.last4| ==> card.last4[i] == cardForm.number[k + i];
      }
      cards := cards + [card];
      showCardModal := false;
      cardForm := EmptyCardForm;
    }

    /** `handleDeleteCard(id)`: the cards with that id go when the confirmation is accepted. */
    method DeleteCard(id: int, confirmed: bool)
      modifies this`cards
      ensures confirmed ==> cards == Filter(old(cards), (c: Card) => c.id != id)
      ensures confirmed ==> forall c :: c in cards ==> c.id != id
      ensures !confirmed ==> cards == old(cards)
    {
      if confirmed {
        FilterSound(cards, (c: Card) => c.id != id);
        cards := Filter(cards, (c: Card) => c.id != id);
      }
    }
  }
}
