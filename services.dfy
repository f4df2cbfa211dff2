/**
 * The payment service's translation of a cart fetched from the main backend
 * into the payment provider's line items (`process_cart_to_items`), and the
 * preference payload that `create_preference` hands to the provider's SDK.
 */
module Services {
  import opened Optional
  import opened PythonValues

  /**
   * One entry of the cart's `productos` list. A dictionary entry may lack any of
   * its fields; an entry that is not a dictionary has no `.get`, so touching it raises.
   */
  datatype Product =
    | Record(id: Option<Scalar>, nombre: Option<Scalar>, descripcion: Option<Scalar>,
             cantidad: Option<Scalar>, precio: Option<Scalar>)
    | NotADict

  /** The value stored under `"productos"`: a list of entries, or some other JSON value. */
  datatype ProductsValue = List(entries: seq<Product>) | NotAList

  /**
   * What `get_cart` hands over: nothing (`None`), a JSON value that is not an
   * object, or an object that may or may not carry `"productos"`.
   */
  datatype CartData = NoCart | NotAnObject | Object(productos: Option<ProductsValue>)

  /** A line item in the provider's format. */
  datatype Item = Item(id: string, title: Scalar, description: Scalar, quantity: int,
                       unitPrice: Scalar, currencyId: string)

  const Currency := "ARS"
  const DefaultTitle: Scalar := Text("Producto")
  const DefaultDescription: Scalar := Text("")
  const DefaultQuantity: Scalar := Int(1)
  const DefaultPrice: Scalar := Int(0)

  /** The item built from one product, or None when building it raises. */
  function ToItem(p: Product): (r: Option<Item>)
    ensures r.Some? ==> p.Record? && r.value.currencyId == Currency
    ensures r.Some? ==> ToInt(p.cantidad.GetOr(DefaultQuantity)) == Some(r.value.quantity)
  {
    match p
    case NotADict => None
    case Record(id, nombre, descripcion, cantidad, precio) =>
      match ToInt(cantidad.GetOr(DefaultQuantity))
      case None => None
      case Some(quantity) =>
        Some(Item(ToStr(id.GetOr(Null)), nombre.GetOr(DefaultTitle), descripcion.GetOr(DefaultDescription),
                  quantity, precio.GetOr(DefaultPrice), Currency))
  }

  /** Conversion fails exactly on a non-dictionary entry or a quantity `int` cannot read. */
  lemma ToItemFailsIff(p: Product)
    ensures ToItem(p) == None <==> p.NotADict? || ToInt(p.cantidad.GetOr(DefaultQuantity)) == None
  {
  }

  /** Every field of a product with no fields takes its default; the id is `str(None)`. */
  lemma EmptyProductDefaults()
    ensures ToItem(Record(None, None, None, None, None)) ==
              Some(Item("None", Text("Producto"), Text(""), 1, Int(0), "ARS"))
  {
  }

  /**
   * Every converted product: the id is `str` of the given id (or of None), each
   * other field is the given value or its default, the quantity is what `int`
   * reads, and the currency is fixed. An integer id reads back as itself.
   */
  lemma ToItemFields(p: Product)
    requires p.Record? && ToItem(p).Some?
    ensures var item := ToItem(p).value;
            && item.id == ToStr(p.id.GetOr(Null))
            && item.title == p.nombre.GetOr(DefaultTitle)
            && item.description == p.descripcion.GetOr(DefaultDescription)
            && item.unitPrice == p.precio.GetOr(DefaultPrice)
            && ToInt(p.cantidad.GetOr(DefaultQuantity)) == Some(item.quantity)
            && item.currencyId == Currency
            && (p.id.Some? && p.id.value.Int? ==> ToInt(Text(item.id)) == Some(p.id.value.i))
  {
    if p.id.Some? && p.id.value.Int? {
      StrIntRoundTrip(p.id.value.i);
    }
  }

  /** Whether every entry of `products` converts. */
  predicate AllConvert(products: seq<Product>) {
    forall j :: 0 <= j < |products| ==> ToItem(products[j]).Some?
  }

  /** The `productos` list of a cart object, when there is one. */
  function ListedProducts(cart: CartData): (products: Option<seq<Product>>) {
    if cart.Object? && cart.productos.Some? && cart.productos.value.List?
    then Some(cart.productos.value.entries)
    else None
  }

  /**
   * `MercadoPagoService.process_cart_to_items`: one item per product, in order,
   * when the cart is an object with a `productos` list all of whose entries convert;
   * the empty list in every other case, never a partial list.
   */
  method ProcessCartToItems(cart: CartData) returns (items: seq<Item>)
    ensures !cart.Object? ==> items == []
    ensures cart.Object? && (cart.productos.None? || cart.productos.value.NotAList?) ==> items == []
    ensures ListedProducts(cart).Some? ==>
              var products := ListedProducts(cart).value;
              && (AllConvert(products) ==>
                    |items| == |products| &&
                    forall j :: 0 <= j < |products| ==> ToItem(products[j]) == Some(items[j]))
              && (!AllConvert(products) ==> items == [])
  {
    if !cart.Object? {
      return [];
    }
    if cart.productos.None? {
      return [];
    }
    if cart.productos.value.NotAList? {
      return [];
    }
    var products := cart.productos.value.entries;
    items := [];
    var i := 0;
    while i < |products|
      invariant 0 <= i <= |products|
      invariant |items| == i
      invariant forall j :: 0 <= j < i ==> ToItem(products[j]) == Some(items[j])
    {
      var item := ToItem(products[i]);
      if item.None? {
        return [];
      }
      items := items + [item.value];
      i := i + 1;
    }
  }

  /** A value of the preference payload: a string, a flat object, or the item list. */
  datatype Value = Str(s: string) | Fields(fields: map<string, string>) | Items(items: seq<Item>)

  /** The three redirect targets under the main backend's URL. */
  function BackUrls(backendUrl: string): (urls: map<string, string>)
    ensures urls.Keys == {"success", "failure", "pending"}
    ensures forall k :: k in urls ==> backendUrl <= urls[k]
    ensures urls["success"] == backendUrl + "/payment/success"
    ensures urls["failure"] == backendUrl + "/payment/failure"
    ensures urls["pending"] == backendUrl + "/payment/pending"
  {
    map["success" := backendUrl + "/payment/success",
        "failure" := backendUrl + "/payment/failure",
        "pending" := backendUrl + "/payment/pending"]
  }

  /**
   * The `preference_data` dictionary of `create_preference`: four fixed entries,
   * plus `notification_url` and `payer` exactly when those arguments are truthy.
   */
  method BuildPreferenceData(items: seq<Item>, externalReference: Scalar, payerEmail: Option<string>,
                             notificationUrl: Option<string>, backendUrl: string)
    returns (data: map<string, Value>)
    ensures data.Keys == {"items", "external_reference", "back_urls", "auto_return"}
                         + (if Truthy(notificationUrl) then {"notification_url"} else {})
                         + (if Truthy(payerEmail) then {"payer"} else {})
    ensures data["items"] == Items(items)
    ensures data["external_reference"] == Str(ToStr(externalReference))
    ensures data["back_urls"] == Fields(BackUrls(backendUrl))
    ensures data["auto_return"] == Str("approved")
    ensures Truthy(notificationUrl) ==> data["notification_url"] == Str(notificationUrl.value)
    ensures Truthy(payerEmail) ==> data["payer"] == Fields(map["email" := payerEmail.value])
  {
    data := map[
      "items" := Items(items),
      "external_reference" := Str(ToStr(externalReference)),
      "back_urls" := Fields(BackUrls(backendUrl)),
      "auto_return" := Str("approved")
    ];
    if Truthy(notificationUrl) {
      data := data["notification_url" := Str(notificationUrl.value)];
    }
    if Truthy(payerEmail) {
      data := data["payer" := Fields(map["email" := payerEmail.value])];
    }
  }
}
