/** The carts collection (src/collections/Carts.ts): its four access rules and
    the constraints its fields put on a stored cart. */
module Carts {
  import opened Outcomes
  import opened Text
  import opened Access
  import opened Fields

  // ---------------------------------------------------------------------------
  // Access rules
  // ---------------------------------------------------------------------------

  /** The part of the incoming document (`data`) the rules look at. */
  datatype CartData = CartData(user: Option<Ref>)

  /** `access.read`: nobody anonymous, every cart for the admins collection, and
      otherwise a query filter restricting to the caller's own carts. */
  function Read(user: Option<Principal>): (d: Decision)
    ensures user.None? ==> d == Deny
    ensures IsAdminsCollection(user) ==> d == Allow
    ensures user.Some? && !IsAdminsCollection(user) ==> d == AllowWhere(user.value.id)
  {
    match user
    case None => Deny
    case Some(p) => if p.collection == Admins then Allow else AllowWhere(p.id)
  }

  /** The read filter lets a caller see a stored cart exactly when the caller is
      from the admins collection or the cart's `user` is the caller. */
  lemma ReadVisibility(user: Option<Principal>, owner: string)
    ensures Admits(Read(user), owner) <==>
            IsAdminsCollection(user) || (user.Some? && user.value.id == owner)
    ensures user.Some? && !IsAdminsCollection(user) && owner != user.value.id ==> !Admits(Read(user), owner)
  {
  }

  /** `access.create`: the admins collection, or a customer of the users collection. */
  function Create(user: Option<Principal>): (d: Decision)
    ensures d.Allow? || d.Deny?
    ensures Grants(d) <==>
            IsAdminsCollection(user) ||
            (user.Some? && user.value.collection == Users && user.value.role == Some(Customer))
  {
    match user
    case None => Deny
    case Some(p) =>
      if p.collection == Admins then Allow
      else FromBool(p.collection == Users && p.role == Some(Customer))
  }

  /** `access.update`: the admins collection, or a caller named by `data.user`
      (absent data refuses, through optional chaining). */
  function Update(user: Option<Principal>, data: Option<CartData>): (d: Decision)
    ensures d.Allow? || d.Deny?
    ensures Grants(d) <==>
            IsAdminsCollection(user) ||
            (user.Some? && data.Some? && RefEquals(data.value.user, user.value.id))
  {
    match user
    case None => Deny
    case Some(p) =>
      if p.collection == Admins then Allow
      else FromBool(data.Some? && RefEquals(data.value.user, p.id))
  }

  /** `access.delete`, written out separately in the source. */
  function Delete(user: Option<Principal>, data: Option<CartData>): (d: Decision)
    ensures d.Allow? || d.Deny?
    ensures Grants(d) <==>
            IsAdminsCollection(user) ||
            (user.Some? && data.Some? && RefEquals(data.value.user, user.value.id))
  {
    match user
    case None => Deny
    case Some(p) =>
      if p.collection == Admins then Allow
      else FromBool(data.Some? && RefEquals(data.value.user, p.id))
  }

  /** Update and delete answer alike on every caller and every document. */
  lemma UpdateDeleteAgree(user: Option<Principal>, data: Option<CartData>)
    ensures Update(user, data) == Delete(user, data)
  {
  }

  /** A customer cannot touch a cart whose `user` is a populated document, nor
      one whose `user` names somebody else. */
  lemma OnlyTheNamedOwnerMutates(p: Principal, data: CartData)
    requires p.collection == Users
    requires data.user != Some(RefId(p.id))
    ensures Update(Some(p), Some(data)) == Deny
    ensures Delete(Some(p), Some(data)) == Deny
  {
  }

  /** Farmers (and users-collection admins) may not create carts. */
  lemma OnlyCustomersCreate(p: Principal)
    requires p.collection == Users && p.role != Some(Customer)
    ensures Create(Some(p)) == Deny
  {
  }

  // ---------------------------------------------------------------------------
  // Fields
  // ---------------------------------------------------------------------------

  /** The `status` select. */
  datatype CartStatus = Active | Ordered | Cancelled

  const DefaultStatus: string := "active"

  function StatusValue(s: CartStatus): string {
    match s
    case Active => "active"
    case Ordered => "ordered"
    case Cancelled => "cancelled"
  }

  function ParseStatus(v: string): (r: Option<CartStatus>)
    ensures r.Some? ==> StatusValue(r.value) == v
    ensures r.Some? <==> v in {"active", "ordered", "cancelled"}
  {
    if v == "active" then Some(Active)
    else if v == "ordered" then Some(Ordered)
    else if v == "cancelled" then Some(Cancelled)
    else None
  }

  /** Each status is stored as its own option value and read back unchanged. */
  lemma StatusRoundTrip(s: CartStatus, t: CartStatus)
    ensures ParseStatus(StatusValue(s)) == Some(s)
    ensures StatusValue(s) == StatusValue(t) ==> s == t
  {
  }

  /** One row of the `items` array as submitted. */
  datatype ItemInput = ItemInput(product: Option<Ref>, quantity: Option<real>, unit: Option<string>, priceSnapshot: Option<real>)

  /** One stored row of the `items` array. */
  datatype CartItem = CartItem(product: Ref, quantity: real, unit: string, priceSnapshot: real)

  predicate ValidItem(i: CartItem) {
    i.quantity >= 1.0 && |i.unit| > 0 && i.priceSnapshot >= 0.0
  }

  /** Field checks of an item: product, unit and price snapshot are required,
      quantity defaults to 1 and is at least 1, the snapshot is at least 0. */
  function CheckItem(x: ItemInput): (r: Result<CartItem, FieldError>)
    ensures r.Ok? ==> ValidItem(r.value)
    ensures r.Ok? ==> x.product == Some(r.value.product) && x.unit == Some(r.value.unit)
                      && x.priceSnapshot == Some(r.value.priceSnapshot)
    ensures r.Ok? ==> r.value.quantity == x.quantity.GetOr(1.0)
    ensures r.Ok? <==>
              x.product.Some? && x.quantity.GetOr(1.0) >= 1.0 && Truthy(x.unit)
              && x.priceSnapshot.Some? && x.priceSnapshot.value >= 0.0
  {
    match RequiredRef("product", x.product)
    case Err(e) => Err(e)
    case Ok(product) =>
      match RequiredNumber("quantity", x.quantity, Some(1.0), 1.0)
      case Err(e) => Err(e)
      case Ok(quantity) =>
        match RequiredText("unit", x.unit)
        case Err(e) => Err(e)
        case Ok(unit) =>
          match RequiredNumber("priceSnapshot", x.priceSnapshot, None, 0.0)
          case Err(e) => Err(e)
          case Ok(price) => Ok(CartItem(product, quantity, unit, price))
  }

  /** A row that leaves the quantity out is stored with quantity 1. */
  lemma QuantityDefaultsToOne(product: Ref, unit: string, price: real)
    requires |unit| > 0 && price >= 0.0
    ensures CheckItem(ItemInput(Some(product), None, Some(unit), Some(price))) == Ok(CartItem(product, 1.0, unit, price))
  {
  }

  function ItemAsInput(i: CartItem): ItemInput {
    ItemInput(Some(i.product), Some(i.quantity), Some(i.unit), Some(i.priceSnapshot))
  }

  /** Exactly the valid items pass the checks unchanged when resubmitted. */
  lemma CheckItemAcceptsValid(i: CartItem)
    ensures CheckItem(ItemAsInput(i)) == Ok(i) <==> ValidItem(i)
  {
  }

  /** Checks every row in order, stopping at the first failing one. */
  function CheckItems(xs: seq<ItemInput>): (r: Result<seq<CartItem>, FieldError>)
    ensures r.Ok? ==> |r.value| == |xs|
    ensures r.Ok? ==> forall i :: 0 <= i < |xs| ==> CheckItem(xs[i]) == Ok(r.value[i])
    ensures r.Ok? <==> forall i :: 0 <= i < |xs| ==> CheckItem(xs[i]).Ok?
  {
    if |xs| == 0 then Ok([])
    else
      match CheckItem(xs[0])
      case Err(e) => Err(e)
      case Ok(item) =>
        match CheckItems(xs[1..])
        case Err(e) => Err(e)
        case Ok(rest) =>
          assert forall i :: 1 <= i < |xs| ==> xs[i] == xs[1..][i - 1];
          Ok([item] + rest)
  }

  /** A cart as submitted; an absent `items` array is the empty one. */
  datatype CartInput = CartInput(user: Option<Ref>, farm: Option<Ref>, items: seq<ItemInput>, status: Option<string>)

  /** A stored cart. */
  datatype Cart = Cart(user: Ref, farm: Ref, items: seq<CartItem>, status: CartStatus)

  predicate ValidCart(c: Cart) {
    forall i :: 0 <= i < |c.items| ==> ValidItem(c.items[i])
  }

  /** Field checks of a cart: `user` and `farm` are required, every item is
      checked, `status` defaults to active and must be one of the options. */
  function CheckCart(x: CartInput): (r: Result<Cart, FieldError>)
    ensures r.Ok? ==> ValidCart(r.value)
    ensures r.Ok? ==> x.user == Some(r.value.user) && x.farm == Some(r.value.farm)
    ensures r.Ok? ==> |r.value.items| == |x.items|
    ensures r.Ok? ==> StatusValue(r.value.status) == x.status.GetOr(DefaultStatus)
    ensures r.Ok? && x.status.None? ==> r.value.status == Active
    ensures r.Ok? ==> CheckItems(x.items) == Ok(r.value.items)
    ensures r.Ok? <==>
              x.user.Some? && x.farm.Some? && CheckItems(x.items).Ok?
              && ParseStatus(x.status.GetOr(DefaultStatus)).Some?
  {
    match RequiredRef("user", x.user)
    case Err(e) => Err(e)
    case Ok(user) =>
      match RequiredRef("farm", x.farm)
      case Err(e) => Err(e)
      case Ok(farm) =>
        match CheckItems(x.items)
        case Err(e) => Err(e)
        case Ok(items) =>
          match RequiredSelect("status", x.status, Some(DefaultStatus), ParseStatus)
          case Err(e) => Err(e)
          case Ok(status) => Ok(Cart(user, farm, items, status))
  }
}
