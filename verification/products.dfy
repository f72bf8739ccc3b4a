/** The products collection (src/collections/Products.ts): its access rules
    and the constraints its fields put on a stored product. */
module Products {
  import opened Outcomes
  import opened Access
  import opened Fields

  // ---------------------------------------------------------------------------
  // Access rules
  // ---------------------------------------------------------------------------

  /** What `data.farm` may hold: a bare farm id (a string, whose `.owner` is
      undefined) or a populated farm document with its `owner` field. */
  datatype FarmField = FarmId(id: string) | FarmDoc(id: string, owner: Option<Ref>)

  /** The part of the incoming document (`data`) the rules look at. The
      collection declares no `farm` field, so a document built from its schema
      has `farm` absent. */
  datatype ProductData = ProductData(farm: Option<FarmField>)

  /** `access.create`: any caller whose role is farmer. */
  function Create(user: Option<Principal>): (d: Decision)
    ensures d.Allow? || d.Deny?
    ensures Grants(d) <==> HasRole(user, Farmer)
  {
    FromBool(user.Some? && user.value.role == Some(Farmer))
  }

  /** `access.read`: public. */
  function Read(user: Option<Principal>): (d: Decision)
    ensures d == Allow
  {
    Allow
  }

  /** Whether `data.farm.owner === id`, or the property read that throws first. */
  function FarmOwnerIs(data: Option<ProductData>, id: string): (r: Result<bool, AccessError>)
    ensures r.Err? <==> data.None? || data.value.farm.None?
    ensures r == Ok(true) <==>
              data.Some? && data.value.farm.Some? && data.value.farm.value.FarmDoc?
              && RefEquals(data.value.farm.value.owner, id)
  {
    match data
    case None => Err(ReadOfUndefined("farm"))
    case Some(doc) =>
      match doc.farm
      case None => Err(ReadOfUndefined("owner"))
      case Some(FarmId(_)) => Ok(false)
      case Some(FarmDoc(_, owner)) => Ok(RefEquals(owner, id))
  }

  /** The farmer rule shared by update and delete, as the source writes it. */
  function FarmOwnerRule(user: Option<Principal>, data: Option<ProductData>): (d: Decision)
    ensures Grants(d) ==> HasRole(user, Farmer) && d.Allow?
    ensures Grants(d) <==> HasRole(user, Farmer) && FarmOwnerIs(data, user.value.id) == Ok(true)
    ensures d.Throw? <==> HasRole(user, Farmer) && (data.None? || data.value.farm.None?)
  {
    match user
    case None => Deny
    case Some(p) =>
      if p.role != Some(Farmer) then Deny
      else match FarmOwnerIs(data, p.id)
        case Err(e) => Throw(e)
        case Ok(b) => FromBool(b)
  }

  /** `access.update`: a farmer who owns the farm at `data.farm.owner`. */
  function Update(user: Option<Principal>, data: Option<ProductData>): (d: Decision)
    ensures Grants(d) <==>
              HasRole(user, Farmer) && data.Some? && data.value.farm.Some?
              && data.value.farm.value.FarmDoc? && RefEquals(data.value.farm.value.owner, user.value.id)
    ensures !HasRole(user, Farmer) ==> d == Deny
  {
    FarmOwnerRule(user, data)
  }

  /** `access.delete`: the same predicate as update. */
  function Delete(user: Option<Principal>, data: Option<ProductData>): (d: Decision)
    ensures Grants(d) <==>
              HasRole(user, Farmer) && data.Some? && data.value.farm.Some?
              && data.value.farm.value.FarmDoc? && RefEquals(data.value.farm.value.owner, user.value.id)
    ensures !HasRole(user, Farmer) ==> d == Deny
  {
    FarmOwnerRule(user, data)
  }

  /** No product update or delete is ever granted for a document shaped by the
      collection's own schema: farmers make the rule throw, everybody else is
      refused. */
  lemma SchemaProductNeverMutable(user: Option<Principal>)
    ensures !Grants(Update(user, Some(ProductData(None))))
    ensures !Grants(Delete(user, Some(ProductData(None))))
    ensures HasRole(user, Farmer) ==> Update(user, Some(ProductData(None))) == Throw(ReadOfUndefined("owner"))
    ensures HasRole(user, Farmer) ==> Delete(user, Some(ProductData(None))) == Throw(ReadOfUndefined("owner"))
  {
  }

  /** Update and delete answer alike on every caller and every document,
      including when they throw. */
  lemma UpdateDeleteAgree(user: Option<Principal>, data: Option<ProductData>)
    ensures Update(user, data) == Delete(user, data)
  {
  }

  /** The update rule with the schema gap closed: the product carries a
      required relation to its farm, resolved to that farm's `owner`. */
  function UpdateByFarmOwner(user: Option<Principal>, farmOwner: Ref): (d: Decision)
    ensures !d.Throw?
    ensures Grants(d) <==> HasRole(user, Farmer) && farmOwner == RefId(user.value.id)
  {
    match user
    case None => Deny
    case Some(p) => FromBool(p.role == Some(Farmer) && farmOwner == RefId(p.id))
  }

  /** With the gap closed, the farmer who owns the product's farm can always
      update it, and the corrected rule agrees with the source's whenever the
      document does carry a populated farm. */
  lemma FarmOwnerCanUpdate(p: Principal, farmId: string, owner: Ref)
    requires p.role == Some(Farmer)
    ensures Grants(UpdateByFarmOwner(Some(p), RefId(p.id)))
    ensures UpdateByFarmOwner(Some(p), owner) == Update(Some(p), Some(ProductData(Some(FarmDoc(farmId, Some(owner))))))
  {
  }

  // ---------------------------------------------------------------------------
  // Fields
  // ---------------------------------------------------------------------------

  /** The `productType` select. */
  datatype ProductType = Produce | Dairy | Meat | Poultry

  function ProductTypeValue(t: ProductType): string {
    match t
    case Produce => "produce"
    case Dairy => "dairy"
    case Meat => "meat"
    case Poultry => "poultry"
  }

  function ParseProductType(v: string): (r: Option<ProductType>)
    ensures r.Some? ==> ProductTypeValue(r.value) == v
    ensures r.Some? <==> v in {"produce", "dairy", "meat", "poultry"}
  {
    if v == "produce" then Some(Produce)
    else if v == "dairy" then Some(Dairy)
    else if v == "meat" then Some(Meat)
    else if v == "poultry" then Some(Poultry)
    else None
  }

  /** Each product type is stored as its own option value and read back unchanged. */
  lemma ProductTypeRoundTrip(t: ProductType, u: ProductType)
    ensures ParseProductType(ProductTypeValue(t)) == Some(t)
    ensures ProductTypeValue(t) == ProductTypeValue(u) ==> t == u
  {
  }

  /** A product as submitted (the fields with constraints). */
  datatype ProductInput = ProductInput(name: Option<string>, productType: Option<string>, productImage: Option<Ref>)

  /** A stored product. */
  datatype Product = Product(name: string, productType: ProductType, productImage: Ref)

  /** Field checks of a product: name and image are required, and the type is
      required, has no default, and must be one of the four options. */
  function CheckProduct(x: ProductInput): (r: Result<Product, FieldError>)
    ensures r.Ok? <==>
              x.name.Some? && |x.name.value| > 0 && x.productType.Some?
              && x.productType.value in {"produce", "dairy", "meat", "poultry"} && x.productImage.Some?
    ensures r.Ok? ==> Some(ProductTypeValue(r.value.productType)) == x.productType
    ensures r.Ok? ==> Some(r.value.name) == x.name && Some(r.value.productImage) == x.productImage
  {
    match RequiredText("name", x.name)
    case Err(e) => Err(e)
    case Ok(name) =>
      match RequiredSelect("productType", x.productType, None, ParseProductType)
      case Err(e) => Err(e)
      case Ok(t) =>
        match RequiredRef("productImage", x.productImage)
        case Err(e) => Err(e)
        case Ok(image) => Ok(Product(name, t, image))
  }
}
