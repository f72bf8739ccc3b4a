/** The farms collection (src/collections/Farms.ts): its access rules and the
    constraints its fields put on a stored farm. */
module Farms {
  import opened Outcomes
  import opened Access
  import opened Fields

  // ---------------------------------------------------------------------------
  // Access rules
  // ---------------------------------------------------------------------------

  /** The part of the incoming document (`data`) the rules look at. */
  datatype FarmData = FarmData(owner: Option<Ref>)

  /** `access.create`: any caller whose role is farmer; the caller's collection
      is not consulted and no other role, admin included, is let in. */
  function Create(user: Option<Principal>): (d: Decision)
    ensures d.Allow? || d.Deny?
    ensures Grants(d) <==> HasRole(user, Farmer)
  {
    FromBool(user.Some? && user.value.role == Some(Farmer))
  }

  /** `access.read`: public. */
  function Read(user: Option<Principal>): (d: Decision)
    ensures d == Allow
  {
    Allow
  }

  /** `access.update`: a farmer named by `data.owner`. `data.owner` is read
      without optional chaining, so for a farmer caller absent data throws. */
  function Update(user: Option<Principal>, data: Option<FarmData>): (d: Decision)
    ensures Grants(d) <==> HasRole(user, Farmer) && data.Some? && RefEquals(data.value.owner, user.value.id)
    ensures d.Throw? <==> HasRole(user, Farmer) && data.None?
    ensures d.Allow? || d.Deny? || d == Throw(ReadOfUndefined("owner"))
  {
    match user
    case None => Deny
    case Some(p) =>
      if p.role != Some(Farmer) then Deny
      else match data
        case None => Throw(ReadOfUndefined("owner"))
        case Some(doc) => FromBool(RefEquals(doc.owner, p.id))
  }

  /** `access.delete`, written out separately in the source. */
  function Delete(user: Option<Principal>, data: Option<FarmData>): (d: Decision)
    ensures Grants(d) <==> HasRole(user, Farmer) && data.Some? && RefEquals(data.value.owner, user.value.id)
    ensures d.Throw? <==> HasRole(user, Farmer) && data.None?
    ensures d.Allow? || d.Deny? || d == Throw(ReadOfUndefined("owner"))
  {
    match user
    case None => Deny
    case Some(p) =>
      if p.role != Some(Farmer) then Deny
      else match data
        case None => Throw(ReadOfUndefined("owner"))
        case Some(doc) => FromBool(RefEquals(doc.owner, p.id))
  }

  /** Delete uses the very same predicate as update. */
  lemma UpdateDeleteAgree(user: Option<Principal>, data: Option<FarmData>)
    ensures Update(user, data) == Delete(user, data)
  {
  }

  /** Role admin gets no exception: an admin-role user cannot create, update or
      delete a farm, whatever the document says. */
  lemma AdminRoleHasNoFarmRights(p: Principal, data: Option<FarmData>)
    requires p.role == Some(Admin)
    ensures Create(Some(p)) == Deny && Update(Some(p), data) == Deny && Delete(Some(p), data) == Deny
  {
  }

  // ---------------------------------------------------------------------------
  // Fields
  // ---------------------------------------------------------------------------

  /** The `unit` select of a product entry. */
  datatype Unit = Kg | Pcs | Liters | Boxes

  const DefaultUnit: string := "kg"

  function UnitValue(u: Unit): string {
    match u
    case Kg => "kg"
    case Pcs => "pcs"
    case Liters => "liters"
    case Boxes => "boxes"
  }

  function ParseUnit(v: string): (r: Option<Unit>)
    ensures r.Some? ==> UnitValue(r.value) == v
    ensures r.Some? <==> v in {"kg", "pcs", "liters", "boxes"}
  {
    if v == "kg" then Some(Kg)
    else if v == "pcs" then Some(Pcs)
    else if v == "liters" then Some(Liters)
    else if v == "boxes" then Some(Boxes)
    else None
  }

  /** Each unit is stored as its own option value and read back unchanged. */
  lemma UnitRoundTrip(u: Unit, w: Unit)
    ensures ParseUnit(UnitValue(u)) == Some(u)
    ensures UnitValue(u) == UnitValue(w) ==> u == w
  {
  }

  /** One row of the `products` array as submitted. */
  datatype OfferInput = OfferInput(product: Option<Ref>, quantity: Option<real>, unit: Option<string>, price: Option<real>)

  /** One stored row of the `products` array. */
  datatype Offer = Offer(product: Ref, quantity: real, unit: Unit, price: real)

  predicate ValidOffer(o: Offer) {
    o.quantity >= 0.0 && o.price >= 0.0
  }

  /** Field checks of a product entry: product required; quantity and price
      default to 0 and are at least 0; unit defaults to kg and is an option. */
  function CheckOffer(x: OfferInput): (r: Result<Offer, FieldError>)
    ensures r.Ok? ==> ValidOffer(r.value)
    ensures r.Ok? ==> x.product == Some(r.value.product)
    ensures r.Ok? ==> r.value.quantity == x.quantity.GetOr(0.0) && r.value.price == x.price.GetOr(0.0)
    ensures r.Ok? ==> UnitValue(r.value.unit) == x.unit.GetOr(DefaultUnit)
    ensures r.Ok? <==>
              x.product.Some? && x.quantity.GetOr(0.0) >= 0.0 && x.price.GetOr(0.0) >= 0.0
              && ParseUnit(x.unit.GetOr(DefaultUnit)).Some?
  {
    match RequiredRef("product", x.product)
    case Err(e) => Err(e)
    case Ok(product) =>
      match RequiredNumber("quantity", x.quantity, Some(0.0), 0.0)
      case Err(e) => Err(e)
      case Ok(quantity) =>
        match RequiredSelect("unit", x.unit, Some(DefaultUnit), ParseUnit)
        case Err(e) => Err(e)
        case Ok(unit) =>
          match RequiredNumber("price", x.price, Some(0.0), 0.0)
          case Err(e) => Err(e)
          case Ok(price) => Ok(Offer(product, quantity, unit, price))
  }

  /** An entry submitted with only its product gets 0 of kg at price 0. */
  lemma OfferDefaults(product: Ref)
    ensures CheckOffer(OfferInput(Some(product), None, None, None)) == Ok(Offer(product, 0.0, Kg, 0.0))
  {
  }

  /** Checks every row in order, stopping at the first failing one. */
  function CheckOffers(xs: seq<OfferInput>): (r: Result<seq<Offer>, FieldError>)
    ensures r.Ok? ==> |r.value| == |xs|
    ensures r.Ok? ==> forall i :: 0 <= i < |xs| ==> CheckOffer(xs[i]) == Ok(r.value[i])
    ensures r.Ok? <==> forall i :: 0 <= i < |xs| ==> CheckOffer(xs[i]).Ok?
  {
    if |xs| == 0 then Ok([])
    else
      match CheckOffer(xs[0])
      case Err(e) => Err(e)
      case Ok(offer) =>
        match CheckOffers(xs[1..])
        case Err(e) => Err(e)
        case Ok(rest) =>
          assert forall i :: 1 <= i < |xs| ==> xs[i] == xs[1..][i - 1];
          Ok([offer] + rest)
  }

  /** A farm as submitted (the fields with constraints); an absent `products`
      array is the empty one. */
  datatype FarmInput = FarmInput(name: Option<string>, farmImage: Option<Ref>, products: seq<OfferInput>, owner: Option<Ref>)

  /** A stored farm. */
  datatype Farm = Farm(name: string, farmImage: Ref, products: seq<Offer>, owner: Ref)

  predicate ValidFarm(f: Farm) {
    |f.name| > 0 && forall i :: 0 <= i < |f.products| ==> ValidOffer(f.products[i])
  }

  /** Field checks of a farm: name, image and owner are required and every
      product entry is checked. */
  function CheckFarm(x: FarmInput): (r: Result<Farm, FieldError>)
    ensures r.Ok? ==> ValidFarm(r.value)
    ensures r.Ok? ==> x.owner == Some(r.value.owner) && x.name == Some(r.value.name)
    ensures r.Ok? ==> |r.value.products| == |x.products|
    ensures r.Ok? ==> CheckOffers(x.products) == Ok(r.value.products) && x.farmImage == Some(r.value.farmImage)
    ensures r.Ok? <==>
              x.name.Some? && |x.name.value| > 0 && x.farmImage.Some? && x.owner.Some?
              && CheckOffers(x.products).Ok?
  {
    match RequiredText("name", x.name)
    case Err(e) => Err(e)
    case Ok(name) =>
      match RequiredRef("farmImage", x.farmImage)
      case Err(e) => Err(e)
      case Ok(image) =>
        match CheckOffers(x.products)
        case Err(e) => Err(e)
        case Ok(offers) =>
          match RequiredRef("owner", x.owner)
          case Err(e) => Err(e)
          case Ok(owner) => Ok(Farm(name, image, offers, owner))
  }
}
