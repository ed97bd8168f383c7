/** The cart page: the checkout form, the order text sent over WhatsApp, and
    the quantity controls of each entry. */
module CartPage {
  import opened Common
  import opened Catalog
  import opened Cart
  import opened WhatsApp

  // ---------------------------------------------------------------------------
  // The product text

  /** `${name} (Power: ${power}) x ${quantity}`. */
  function ProductLine(item: CartItem): string {
    item.product.name + " (Power: " + item.power + ") x " + IntToDecimal(item.quantity)
  }

  function ProductLines(items: seq<CartItem>): (lines: seq<string>)
    ensures |lines| == |items|
    ensures forall i :: 0 <= i < |items| ==> lines[i] == ProductLine(items[i])
  {
    if items == [] then [] else [ProductLine(items[0])] + ProductLines(items[1..])
  }

  /** The lines joined with `'\\n'`: a backslash followed by the letter n, not
      a line break. */
  const LineSeparator: string := ['\\', 'n']

  function ProductsText(items: seq<CartItem>): string {
    Join(ProductLines(items), LineSeparator)
  }

  lemma {:induction false} ProductLinesSnoc(items: seq<CartItem>, x: CartItem)
    ensures ProductLines(items + [x]) == ProductLines(items) + [ProductLine(x)]
  {
    var l := ProductLines(items + [x]);
    assert |l| == |ProductLines(items) + [ProductLine(x)]|;
    forall i | 0 <= i < |l|
      ensures l[i] == (ProductLines(items) + [ProductLine(x)])[i]
    {
      if i < |items| {
        assert (items + [x])[i] == items[i];
      }
    }
  }

  /** One line per entry, in cart order: a further entry appends the separator
      and its line. */
  lemma ProductsTextSnoc(items: seq<CartItem>, x: CartItem)
    ensures items == [] ==> ProductsText(items + [x]) == ProductLine(x)
    ensures items != [] ==> ProductsText(items + [x]) == ProductsText(items) + LineSeparator + ProductLine(x)
  {
    ProductLinesSnoc(items, x);
    if items != [] {
      JoinSnoc(ProductLines(items), ProductLine(x), LineSeparator);
    } else {
      assert items + [x] == [x];
    }
  }

  lemma IntToDecimalHasNoNewline(i: int)
    ensures '\n' !in IntToDecimal(i)
  {
    var d := if i < 0 then NatToDecimal(-i) else NatToDecimal(i);
    assert forall k :: 0 <= k < |d| ==> IsDigit(d[k]);
  }

  lemma ProductLineIsOneLine(item: CartItem)
    requires '\n' !in item.product.name && '\n' !in item.power
    ensures '\n' !in ProductLine(item)
  {
    IntToDecimalHasNoNewline(item.quantity);
  }

  /** Since the separator is not a line break, the whole text stays on one
      line of the message when names and powers do. */
  lemma {:induction false} ProductsTextIsOneLine(items: seq<CartItem>)
    requires forall i :: 0 <= i < |items| ==> '\n' !in items[i].product.name && '\n' !in items[i].power
    ensures '\n' !in ProductsText(items)
  {
    var lines := ProductLines(items);
    forall i | 0 <= i < |lines|
      ensures '\n' !in lines[i]
    {
      ProductLineIsOneLine(items[i]);
    }
    JoinAvoids(lines, LineSeparator, '\n');
  }

  /** The checkout message can be read back field by field: the product text,
      then the customer's name, WhatsApp number and address. */
  lemma CheckoutMessageRoundTrip(items: seq<CartItem>, name: string, whatsapp: string, address: string)
    requires forall i :: 0 <= i < |items| ==> '\n' !in items[i].product.name && '\n' !in items[i].power
    requires '\n' !in name && '\n' !in whatsapp
    ensures ParseOrderMessage(OrderMessage(ProductsText(items), name, whatsapp, address))
      == Some(OrderFields(ProductsText(items), name, whatsapp, address))
  {
    ProductsTextIsOneLine(items);
    OrderMessageRoundTrip(ProductsText(items), name, whatsapp, address);
  }

  // ---------------------------------------------------------------------------
  // Checkout

  datatype CheckoutForm = CheckoutForm(name: string, whatsapp: string, address: string)

  datatype FormField = NameField | WhatsAppField | AddressField

  /** What a checkout attempt shows or opens. */
  datatype CheckoutEffect = Alerted(message: string) | OpenedWindow(url: string)

  const FillAllFieldsMessage: string := "Please fill in all fields"

  /** The fields are checked for emptiness only; whitespace passes. */
  predicate FormComplete(form: CheckoutForm) {
    form.name != "" && form.whatsapp != "" && form.address != ""
  }

  class CheckoutPage {
    var form: CheckoutForm

    constructor ()
      ensures form == CheckoutForm("", "", "")
    {
      form := CheckoutForm("", "", "");
    }

    /** `handleInputChange`: one field takes the input's value. */
    method InputChanged(field: FormField, value: string)
      modifies this
      ensures field == NameField ==> form == old(form).(name := value)
      ensures field == WhatsAppField ==> form == old(form).(whatsapp := value)
      ensures field == AddressField ==> form == old(form).(address := value)
    {
      match field {
        case NameField => form := form.(name := value);
        case WhatsAppField => form := form.(whatsapp := value);
        case AddressField => form := form.(address := value);
      }
    }

    /** `handleCheckout`: an incomplete form only raises the alert; a complete
        one opens the WhatsApp link for the cart as it was and empties the
        cart. */
    method HandleCheckout(cart: CartStore, encode: string -> string) returns (effect: CheckoutEffect)
      modifies cart
      ensures !FormComplete(form) ==> effect == Alerted(FillAllFieldsMessage) && cart.items == old(cart.items)
      ensures FormComplete(form) ==>
        effect == OpenedWindow(GenerateWhatsAppLink(encode, StoreNumber, ProductsText(old(cart.items)),
                                                    form.name, form.whatsapp, form.address))
        && cart.items == []
    {
      if form.name == "" || form.whatsapp == "" || form.address == "" {
        effect := Alerted(FillAllFieldsMessage);
        return;
      }
      var productsText := ProductsText(cart.items);
      var whatsappLink := GenerateWhatsAppLink(encode, StoreNumber, productsText, form.name, form.whatsapp, form.address);
      effect := OpenedWindow(whatsappLink);
      cart.ClearCart();
    }
  }

  /** The link a successful checkout opens goes to the store's number and
      carries the encoded order message. */
  lemma CheckoutLinkParts(encode: string -> string, items: seq<CartItem>, form: CheckoutForm)
    ensures LinkParts(GenerateWhatsAppLink(encode, StoreNumber, ProductsText(items), form.name, form.whatsapp, form.address))
      == Some((ContactNumber, encode(OrderMessage(ProductsText(items), form.name, form.whatsapp, form.address))))
  {
    LinkRoundTrip(encode, StoreNumber, ProductsText(items), form.name, form.whatsapp, form.address);
    StoreNumberNormalised();
  }

  // ---------------------------------------------------------------------------
  // Quantity controls

  /** `disabled={item.quantity <= 1}` on the minus button. */
  predicate MinusDisabled(item: CartItem) {
    item.quantity <= 1
  }

  /** The minus button: a disabled button does nothing. */
  method ClickMinus(cart: CartStore, item: CartItem)
    modifies cart
    ensures MinusDisabled(item) ==> cart.items == old(cart.items)
    ensures !MinusDisabled(item) ==>
      cart.items == Updated(old(cart.items), item.product.id, item.power, item.quantity - 1)
  {
    if !MinusDisabled(item) {
      cart.UpdateQuantity(item.product.id, item.power, item.quantity - 1);
    }
  }

  /** The plus button. */
  method ClickPlus(cart: CartStore, item: CartItem)
    modifies cart
    ensures cart.items == Updated(old(cart.items), item.product.id, item.power, item.quantity + 1)
  {
    cart.UpdateQuantity(item.product.id, item.power, item.quantity + 1);
  }

  /** An enabled minus button on an entry of the cart lowers that entry by one
      and never removes it: the cart keeps its length and loses one unit. */
  lemma MinusKeepsEntry(items: seq<CartItem>, j: int)
    requires WellFormed(items)
    requires 0 <= j < |items| && !MinusDisabled(items[j])
    ensures var after := Updated(items, items[j].product.id, items[j].power, items[j].quantity - 1);
      |after| == |items| && after[j].quantity == items[j].quantity - 1 >= 1
      && Total(after) == Total(items) - 1
  {
    var item := items[j];
    var after := Updated(items, item.product.id, item.power, item.quantity - 1);
    UpdateExistingKey(items, item.product.id, item.power, item.quantity - 1, j);
    TotalAfterUpdate(items, item.product.id, item.power, item.quantity - 1, j);
    assert after[j] == item.(quantity := item.quantity - 1);
  }

  /** The plus button on an entry of the cart adds one unit to it. */
  lemma PlusAddsOne(items: seq<CartItem>, j: int)
    requires WellFormed(items)
    requires 0 <= j < |items|
    ensures var after := Updated(items, items[j].product.id, items[j].power, items[j].quantity + 1);
      |after| == |items| && after[j].quantity == items[j].quantity + 1
      && Total(after) == Total(items) + 1
  {
    var item := items[j];
    var after := Updated(items, item.product.id, item.power, item.quantity + 1);
    UpdateExistingKey(items, item.product.id, item.power, item.quantity + 1, j);
    TotalAfterUpdate(items, item.product.id, item.power, item.quantity + 1, j);
    assert after[j] == item.(quantity := item.quantity + 1);
  }
}
