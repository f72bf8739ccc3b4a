/** Properties that hold across the three collections' access rules taken
    together. */
module Policy {
  import opened Outcomes
  import opened Access
  import Carts
  import Farms
  import Products

  /** Some write (create, update or delete) on some collection is granted to
      `user` for the given documents. */
  predicate MayWrite(user: Option<Principal>, cart: Option<Carts.CartData>, farm: Option<Farms.FarmData>,
                     product: Option<Products.ProductData>) {
    || Grants(Carts.Create(user)) || Grants(Carts.Update(user, cart)) || Grants(Carts.Delete(user, cart))
    || Grants(Farms.Create(user)) || Grants(Farms.Update(user, farm)) || Grants(Farms.Delete(user, farm))
    || Grants(Products.Create(user)) || Grants(Products.Update(user, product)) || Grants(Products.Delete(user, product))
  }

  /** An anonymous caller never writes anything, never reads carts, and reads
      farms and products freely. */
  lemma AnonymousNeverWrites(cart: Option<Carts.CartData>, farm: Option<Farms.FarmData>,
                             product: Option<Products.ProductData>)
    ensures !MayWrite(None, cart, farm, product)
    ensures Carts.Read(None) == Deny
    ensures Farms.Read(None) == Allow && Products.Read(None) == Allow
  {
  }

  /** Only a farmer is ever granted a write on farms or products. */
  lemma OnlyFarmersWriteCatalogue(user: Option<Principal>, farm: Option<Farms.FarmData>,
                                  product: Option<Products.ProductData>)
    requires || Grants(Farms.Create(user)) || Grants(Farms.Update(user, farm)) || Grants(Farms.Delete(user, farm))
             || Grants(Products.Create(user)) || Grants(Products.Update(user, product))
             || Grants(Products.Delete(user, product))
    ensures HasRole(user, Farmer)
  {
  }

  /** A well-formed caller from the admins collection may do anything to carts
      and nothing but read to farms and products: the admins collection has no
      role field, and the farm and product rules look only at the role. */
  lemma AdminsCollectionRights(p: Principal, cart: Option<Carts.CartData>, farm: Option<Farms.FarmData>,
                               product: Option<Products.ProductData>)
    requires WellFormed(p) && p.collection == Admins
    ensures Carts.Read(Some(p)) == Allow && Carts.Create(Some(p)) == Allow
    ensures Carts.Update(Some(p), cart) == Allow && Carts.Delete(Some(p), cart) == Allow
    ensures Farms.Create(Some(p)) == Deny && Farms.Update(Some(p), farm) == Deny && Farms.Delete(Some(p), farm) == Deny
    ensures Products.Create(Some(p)) == Deny && Products.Update(Some(p), product) == Deny
    ensures Products.Delete(Some(p), product) == Deny
  {
  }

  /** Only the cart rules answer with a query filter, and only on read for a
      caller outside the admins collection; no cart rule ever throws. */
  lemma OnlyCartReadFilters(user: Option<Principal>, cart: Option<Carts.CartData>, farm: Option<Farms.FarmData>,
                            product: Option<Products.ProductData>)
    ensures Carts.Read(user).AllowWhere? <==> user.Some? && user.value.collection == Users
    ensures !Carts.Create(user).AllowWhere? && !Carts.Update(user, cart).AllowWhere?
    ensures !Farms.Update(user, farm).AllowWhere? && !Products.Update(user, product).AllowWhere?
    ensures !Carts.Delete(user, cart).AllowWhere?
    ensures !Farms.Create(user).AllowWhere? && !Farms.Read(user).AllowWhere? && !Farms.Delete(user, farm).AllowWhere?
    ensures !Products.Create(user).AllowWhere? && !Products.Read(user).AllowWhere?
    ensures !Products.Delete(user, product).AllowWhere?
    ensures !Carts.Read(user).Throw? && !Carts.Create(user).Throw?
    ensures !Carts.Update(user, cart).Throw? && !Carts.Delete(user, cart).Throw?
  {
  }

  /** A delete request that carries no incoming document: only the admins
      collection may delete a cart, a farmer's farm or product delete throws,
      and everybody else is refused. */
  lemma DeleteWithoutData(user: Option<Principal>)
    ensures Grants(Carts.Delete(user, None)) <==> IsAdminsCollection(user)
    ensures HasRole(user, Farmer) ==> Farms.Delete(user, None).Throw? && Products.Delete(user, None).Throw?
    ensures !HasRole(user, Farmer) ==> Farms.Delete(user, None) == Deny && Products.Delete(user, None) == Deny
  {
  }
}
