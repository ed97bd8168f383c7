/** The product detail page: which product the route names, the power
    picker, add-to-cart, and the two-step "Buy Now" that ends in a WhatsApp
    link. The route parameter arrives already converted by `Number(...)`:
    `None` stands for a value that is not a number. */
module ProductDetailPage {
  import opened Common
  import opened Catalog
  import opened Cart
  import opened WhatsApp

  /** `products.find(p => p.id === Number(productId))`. */
  function FindProduct(products: seq<Product>, productId: Option<int>): (found: Option<Product>)
    ensures found.Some? ==> productId.Some? && found.value in products && found.value.id == productId.value
    ensures found.None? <==> productId.None? || forall p :: p in products ==> p.id != productId.value
  {
    if productId.None? || products == [] then None
    else if products[0].id == productId.value then Some(products[0])
    else FindProduct(products[1..], productId)
  }

  /** The product found is the first one with that id. */
  lemma {:induction false} FindProductIsFirst(products: seq<Product>, id: int, k: int)
    requires 0 <= k < |products| && products[k].id == id
    requires forall j :: 0 <= j < k ==> products[j].id != id
    ensures FindProduct(products, Some(id)) == Some(products[k])
  {
    if k > 0 {
      FindProductIsFirst(products[1..], id, k - 1);
    }
  }

  datatype NotificationKind = Success | Error

  datatype Notification = Notification(message: string, kind: NotificationKind)

  const SelectPowerFirstMessage: string := "Please select a power first"
  const AddedToCartMessage: string := "Product added to cart"

  /** The product text of the direct order. */
  function BuyNowText(product: Product, power: string): string {
    product.name + " (Power: " + power + ")"
  }

  /** The direct order leaves the customer's details for the chat: the message
      carries the product text and three empty fields. */
  lemma BuyNowMessageFields(product: Product, power: string)
    requires '\n' !in product.name && '\n' !in power
    ensures ParseOrderMessage(OrderMessage(BuyNowText(product, power), "", "", ""))
      == Some(OrderFields(BuyNowText(product, power), "", "", ""))
  {
    OrderMessageRoundTrip(BuyNowText(product, power), "", "", "");
  }

  class ProductDetail {
    var selectedPower: string
    var buyNowClicked: bool
    var notification: Option<Notification>

    constructor ()
      ensures selectedPower == "" && !buyNowClicked && notification == None
    {
      selectedPower := "";
      buyNowClicked := false;
      notification := None;
    }

    /** The power picker's `onValueChange`. */
    method SelectPower(power: string)
      modifies this
      ensures selectedPower == power && buyNowClicked == old(buyNowClicked) && notification == old(notification)
    {
      selectedPower := power;
    }

    /** The effect on `productId`: the power is cleared; the buy-now step is
        not. */
    method ProductIdChanged()
      modifies this
      ensures selectedPower == "" && buyNowClicked == old(buyNowClicked) && notification == old(notification)
    {
      selectedPower := "";
    }

    /** The notification timer. */
    method NotificationExpired()
      modifies this
      ensures notification == None && selectedPower == old(selectedPower) && buyNowClicked == old(buyNowClicked)
    {
      notification := None;
    }

    /** `handleAddToCart`: without a product nothing happens; without a power
        only the error shows; otherwise the pair is added once. */
    method HandleAddToCart(product: Option<Product>, cart: CartStore)
      modifies this, cart
      ensures selectedPower == old(selectedPower) && buyNowClicked == old(buyNowClicked)
      ensures product.None? ==> notification == old(notification) && cart.items == old(cart.items)
      ensures product.Some? && selectedPower == "" ==>
        notification == Some(Notification(SelectPowerFirstMessage, Error)) && cart.items == old(cart.items)
      ensures product.Some? && selectedPower != "" ==>
        notification == Some(Notification(AddedToCartMessage, Success))
        && cart.items == AddedItem(old(cart.items), product.value, selectedPower)
        && cart.TotalItems() == old(cart.TotalItems()) + 1
    {
      if product.None? {
        return;
      }
      if selectedPower == "" {
        notification := Some(Notification(SelectPowerFirstMessage, Error));
        return;
      }
      cart.AddItem(product.value, selectedPower);
      notification := Some(Notification(AddedToCartMessage, Success));
    }

    /** `handleBuyNow`: the first step. It arms the WhatsApp step only when a
        power is selected. */
    method HandleBuyNow(product: Option<Product>)
      modifies this
      ensures selectedPower == old(selectedPower)
      ensures product.None? ==> buyNowClicked == old(buyNowClicked) && notification == old(notification)
      ensures product.Some? && selectedPower == "" ==>
        buyNowClicked == old(buyNowClicked) && notification == Some(Notification(SelectPowerFirstMessage, Error))
      ensures product.Some? && selectedPower != "" ==> buyNowClicked && notification == old(notification)
    {
      if product.None? {
        return;
      }
      if selectedPower == "" {
        notification := Some(Notification(SelectPowerFirstMessage, Error));
        return;
      }
      buyNowClicked := true;
    }

    /** `handleBuyWhatsApp`: the second step opens the order link with the
        customer fields left empty. */
    method HandleBuyWhatsApp(product: Option<Product>, encode: string -> string) returns (link: Option<string>)
      ensures product.None? || selectedPower == "" ==> link == None
      ensures product.Some? && selectedPower != "" ==>
        link == Some(GenerateWhatsAppLink(encode, StoreNumber, BuyNowText(product.value, selectedPower), "", "", ""))
    {
      if product.None? || selectedPower == "" {
        return None;
      }
      var whatsappLink := GenerateWhatsAppLink(encode, StoreNumber, BuyNowText(product.value, selectedPower), "", "", "");
      link := Some(whatsappLink);
    }

    /** The buy button runs the first step until it has been armed, the second
        after. */
    method ClickBuyButton(product: Option<Product>, encode: string -> string) returns (link: Option<string>)
      modifies this
      ensures selectedPower == old(selectedPower)
      ensures old(buyNowClicked) ==>
        buyNowClicked && notification == old(notification)
        && link == (if product.None? || selectedPower == "" then None
                      else Some(GenerateWhatsAppLink(encode, StoreNumber, BuyNowText(product.value, selectedPower), "", "", "")))
      ensures !old(buyNowClicked) ==> link == None
      ensures !old(buyNowClicked) ==> (buyNowClicked <==> product.Some? && selectedPower != "")
      ensures !old(buyNowClicked) && product.Some? && selectedPower == "" ==>
        notification == Some(Notification(SelectPowerFirstMessage, Error))
      ensures !old(buyNowClicked) && !(product.Some? && selectedPower == "") ==> notification == old(notification)
    {
      if buyNowClicked {
        link := HandleBuyWhatsApp(product, encode);
      } else {
        HandleBuyNow(product);
        link := None;
      }
    }
  }

  /** Two clicks after picking a power: the first only arms the step, the
      second opens the link to the store. */
  method BuyNowTwoClicks(product: Product, power: string, encode: string -> string)
    returns (first: Option<string>, second: Option<string>)
    requires power != ""
    ensures first == None
    ensures second == Some(GenerateWhatsAppLink(encode, StoreNumber, BuyNowText(product, power), "", "", ""))
  {
    var page := new ProductDetail();
    page.SelectPower(power);
    first := page.ClickBuyButton(Some(product), encode);
    second := page.ClickBuyButton(Some(product), encode);
  }
}
