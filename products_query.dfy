/**
 * `productsQueryKeys` of src/queries/products.query.ts and what the
 * product-group and product mutations remove and invalidate on success.
 */
module ProductsQuery {
  import opened QueryKey

  // ===== productsQueryKeys =====

  function All(): Key { [Str("products")] }
  function Groups(): Key { All() + [Str("groups")] }
  function Group(id: int): Key { Groups() + [Num(id)] }
  /** `groupsList(params)`; `params` is the whole parameter object or `Undefined`. */
  function GroupsList(params: KeyPart): Key { Groups() + [Str("list"), params] }
  function Products(): Key { All() + [Str("products")] }
  function ProductsByGroup(groupId: int): Key { Products() + [Str("group"), Num(groupId)] }
  function ProductsList(groupId: int, params: KeyPart): Key {
    ProductsByGroup(groupId) + [Str("list"), params]
  }
  function Product(groupId: int, productId: int): Key { ProductsByGroup(groupId) + [Num(productId)] }

  /** `groups()` heads the group keys, `productsByGroup(g)` heads the
      product keys of group `g`, and the two branches are disjoint. */
  lemma KeyHierarchy(id: int, g: int, p: int, params: KeyPart)
    ensures IsProperPrefix(Groups(), Group(id)) && IsProperPrefix(Groups(), GroupsList(params))
    ensures IsProperPrefix(ProductsByGroup(g), ProductsList(g, params))
    ensures IsProperPrefix(ProductsByGroup(g), Product(g, p))
    ensures Diverge(Groups(), Products())
  {
    assert Groups()[1] != Products()[1];
  }

  /** A group's own key and the group lists diverge, and so do the keys
      of two different groups or of the products of two different groups. */
  lemma KeysDiverge(id: int, other: int, g: int, h: int, params: KeyPart)
    ensures Diverge(Group(id), GroupsList(params))
    ensures id != other ==> Diverge(Group(id), Group(other))
    ensures g != h ==> Diverge(ProductsByGroup(g), ProductsByGroup(h))
  {
    assert Group(id)[2] != GroupsList(params)[2];
    assert Group(id)[2] == Num(id) && Group(other)[2] == Num(other);
    assert ProductsByGroup(g)[3] == Num(g) && ProductsByGroup(h)[3] == Num(h);
  }

  // ===== onSuccess of each mutation =====

  function CreateGroupEffect(): Effect { Effect([], [Groups()]) }
  function UpdateGroupEffect(groupId: int): Effect { Effect([], [Group(groupId), Groups()]) }
  function DeleteGroupEffect(groupId: int): Effect { Effect([Group(groupId)], [Groups()]) }
  function CreateProductEffect(groupId: int): Effect { Effect([], [ProductsByGroup(groupId), Groups()]) }
  function UpdateProductEffect(groupId: int, productId: int): Effect {
    Effect([], [Product(groupId, productId), ProductsByGroup(groupId)])
  }
  function DeleteProductEffect(groupId: int, productId: int): Effect {
    Effect([Product(groupId, productId)], [ProductsByGroup(groupId), Groups()])
  }

  /** Every group mutation marks stale exactly the entries under
      `groups()` (the group's own key is subsumed) and touches no product. */
  lemma GroupMutationsInvalidate(g: int, key: Key)
    ensures Invalidates(CreateGroupEffect(), key) <==> IsPrefix(Groups(), key)
    ensures Invalidates(UpdateGroupEffect(g), key) <==> IsPrefix(Groups(), key)
    ensures Invalidates(DeleteGroupEffect(g), key) <==> IsPrefix(Groups(), key)
    ensures IsPrefix(Products(), key) ==>
      Untouched(CreateGroupEffect(), key) && Untouched(UpdateGroupEffect(g), key) && Untouched(DeleteGroupEffect(g), key)
  {
    KeyHierarchy(g, 0, 0, Undefined);
    InvalidatesUnderTop(CreateGroupEffect(), 0, key);
    InvalidatesUnderTop(UpdateGroupEffect(g), 1, key);
    InvalidatesUnderTop(DeleteGroupEffect(g), 0, key);
    if IsPrefix(Products(), key) {
      DivergeDisjoint(Groups(), Products(), key);
      assert Group(g)[..2] == Groups();
    }
  }

  /** Deleting a group drops the entries under that group's key and no
      list: neither the group lists nor the cached products of the
      deleted group are removed. */
  lemma DeleteGroupRemoves(g: int, params: KeyPart, key: Key)
    ensures Removes(DeleteGroupEffect(g), key) <==> IsPrefix(Group(g), key)
    ensures !Removes(DeleteGroupEffect(g), GroupsList(params))
    ensures Untouched(DeleteGroupEffect(g), ProductsList(g, params))
  {
    RemovesUnder(DeleteGroupEffect(g), key);
    RemovesUnder(DeleteGroupEffect(g), GroupsList(params));
    KeysDiverge(g, g, g, g, params);
    DivergeDisjoint(Group(g), GroupsList(params), GroupsList(params));
    GroupMutationsInvalidate(g, ProductsList(g, params));
  }

  /** Creating a product marks stale its group's products and every group
      entry; updating one marks stale only its group's products (the
      product's own key is subsumed) and no group entry. */
  lemma ProductWritesInvalidate(g: int, p: int, key: Key)
    ensures Invalidates(CreateProductEffect(g), key) <==> IsPrefix(ProductsByGroup(g), key) || IsPrefix(Groups(), key)
    ensures Invalidates(UpdateProductEffect(g, p), key) <==> IsPrefix(ProductsByGroup(g), key)
    ensures IsPrefix(Groups(), key) ==> Untouched(UpdateProductEffect(g, p), key)
    ensures !Removes(CreateProductEffect(g), key) && !Removes(UpdateProductEffect(g, p), key)
  {
    KeyHierarchy(0, g, p, Undefined);
    InvalidatesEither(CreateProductEffect(g), key);
    InvalidatesUnderTop(UpdateProductEffect(g, p), 1, key);
    if IsPrefix(Groups(), key) {
      assert ProductsByGroup(g)[1] != Groups()[1];
      DivergeDisjoint(ProductsByGroup(g), Groups(), key);
    }
  }

  /** Deleting a product drops the entries under its own key and marks
      stale its group's products and every group entry; the products of
      other groups are untouched. */
  lemma DeleteProductTouches(g: int, p: int, h: int, key: Key)
    ensures Removes(DeleteProductEffect(g, p), key) <==> IsPrefix(Product(g, p), key)
    ensures Invalidates(DeleteProductEffect(g, p), key) <==> IsPrefix(ProductsByGroup(g), key) || IsPrefix(Groups(), key)
    ensures h != g && IsPrefix(ProductsByGroup(h), key) ==> Untouched(DeleteProductEffect(g, p), key)
  {
    RemovesUnder(DeleteProductEffect(g, p), key);
    InvalidatesEither(DeleteProductEffect(g, p), key);
    if h != g && IsPrefix(ProductsByGroup(h), key) {
      KeysDiverge(0, 0, g, h, Undefined);
      DivergeDisjoint(ProductsByGroup(g), ProductsByGroup(h), key);
      assert Product(g, p)[3] == Num(g) && ProductsByGroup(h)[3] == Num(h);
      DivergeDisjoint(Product(g, p), ProductsByGroup(h), key);
      assert ProductsByGroup(h)[..2] == Products();
      PrefixTransitive(Products(), ProductsByGroup(h), key);
      KeyHierarchy(0, g, p, Undefined);
      DivergeDisjoint(Groups(), Products(), key);
    }
  }
}
