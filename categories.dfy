/** The server's category controller: list, create, update, delete and fetch
    categories, and list the products filed under one, as operations on an
    in-memory table keyed by store-assigned ids. */
module Categories {
  import opened Wrappers

  type Id = nat

  datatype Category = Category(name: string, description: string, image: string)

  /** A stored product, as far as the category lookup sees it. */
  datatype StoredProduct = StoredProduct(id: Id, name: string, category: Id)

  /** An HTTP answer: a success status with its JSON body, or an error status
      with its message. Most handlers throw the error for the error handler to
      send; `getProductsByCategory` sends its 404 message itself. */
  datatype Response<T> = Ok(status: int, body: T) | Err(status: int, message: string)

  const NotFound := "Category not found"
  const AlreadyExists := "Category already exists"
  const Removed := "Category removed"

  /** `Category.findOne({ name })` finds a record. */
  predicate NameTaken(table: map<Id, Category>, name: string) {
    exists id | id in table :: table[id].name == name
  }

  /** No two categories share a name. */
  ghost predicate UniqueNames(table: map<Id, Category>) {
    forall a, b | a in table && b in table && a != b :: table[a].name != table[b].name
  }

  /** The fields after an update: each supplied value replaces the stored one
      only when it is truthy, so an absent or empty value keeps the old one. */
  function Merge(c: Category, name: Option<string>, description: Option<string>, image: Option<string>): (r: Category)
    ensures Truthy(name) ==> r.name == name.value
    ensures !Truthy(name) ==> r.name == c.name
    ensures Truthy(description) ==> r.description == description.value
    ensures !Truthy(description) ==> r.description == c.description
    ensures Truthy(image) ==> r.image == image.value
    ensures !Truthy(image) ==> r.image == c.image
  {
    Category(OrElse(name, c.name), OrElse(description, c.description), OrElse(image, c.image))
  }

  /** `a` is `b` with some elements left out, the rest in their order. */
  ghost predicate Subsequence<T>(a: seq<T>, b: seq<T>)
    decreases |b|
  {
    if a == [] then true
    else if b == [] then false
    else (a[0] == b[0] && Subsequence(a[1..], b[1..])) || Subsequence(a, b[1..])
  }

  /** `Product.find({ category: id })`: the products filed under `id`, each
      as often as it occurs in the collection, in collection order. */
  function ProductsIn(products: seq<StoredProduct>, id: Id): (r: seq<StoredProduct>)
    ensures |r| <= |products|
    ensures forall p :: p in r <==> p in products && p.category == id
    ensures forall p :: multiset(r)[p] == if p.category == id then multiset(products)[p] else 0
    ensures Subsequence(r, products)
  {
    if products == [] then []
    else
      var rest := ProductsIn(products[1..], id);
      assert multiset(products) == multiset([products[0]]) + multiset(products[1..]) by {
        assert products == [products[0]] + products[1..];
      }
      if products[0].category == id then
        assert ([products[0]] + rest)[1..] == rest;
        [products[0]] + rest
      else
        rest
  }

  /** Creating under a name that is not taken keeps names unique. */
  lemma CreateKeepsUniqueNames(table: map<Id, Category>, id: Id, c: Category)
    requires UniqueNames(table) && !NameTaken(table, c.name) && id !in table
    ensures UniqueNames(table[id := c])
  {
  }

  /** Update does no collision check: renaming one category to another's
      name leaves two categories with that name. */
  lemma UpdateCanDuplicateName(table: map<Id, Category>, a: Id, b: Id)
    requires a in table && b in table && a != b && table[a].name != ""
    ensures !UniqueNames(table[b := Merge(table[b], Some(table[a].name), None, None)])
  {
    var t := table[b := Merge(table[b], Some(table[a].name), None, None)];
    assert t[a].name == t[b].name;
  }

  /** Applying the same update twice gives the same table as applying it once. */
  lemma UpdateIdempotent(table: map<Id, Category>, id: Id, name: Option<string>,
                         description: Option<string>, image: Option<string>)
    requires id in table
    ensures var once := table[id := Merge(table[id], name, description, image)];
            once[id := Merge(once[id], name, description, image)] == once
  {
  }

  /** The category collection, with the product collection beside it. Ids are
      handed out from `nextId`, so a new id is never one in use. */
  class CategoryStore {
    var categories: map<Id, Category>
    var nextId: Id
    var products: seq<StoredProduct>

    ghost predicate Valid()
      reads this
    {
      forall id | id in categories :: id < nextId
    }

    constructor (categories: map<Id, Category>, nextId: Id, products: seq<StoredProduct>)
      requires forall id | id in categories :: id < nextId
      ensures Valid()
      ensures this.categories == categories && this.nextId == nextId && this.products == products
    {
      this.categories := categories;
      this.nextId := nextId;
      this.products := products;
    }

    /** `getCategories`: every stored record, each once, with its id. */
    method GetCategories() returns (r: seq<(Id, Category)>)
      ensures forall i | 0 <= i < |r| :: r[i].0 in categories && categories[r[i].0] == r[i].1
      ensures forall id | id in categories :: (id, categories[id]) in r
      ensures forall i, j | 0 <= i < j < |r| :: r[i].0 != r[j].0
    {
      r := [];
      var rest := categories.Keys;
      while rest != {}
        invariant rest <= categories.Keys
        invariant forall i | 0 <= i < |r| :: r[i].0 in categories && r[i].0 !in rest && categories[r[i].0] == r[i].1
        invariant forall id | id in categories && id !in rest :: (id, categories[id]) in r
        invariant forall i, j | 0 <= i < j < |r| :: r[i].0 != r[j].0
        decreases rest
      {
        var id :| id in rest;
        r := r + [(id, categories[id])];
        rest := rest - {id};
      }
    }

    /** `createCategory`: 400 when the name is taken, with nothing stored;
        otherwise 201 and exactly one new record under a fresh id. */
    method CreateCategory(name: string, description: string, image: string) returns (r: Response<(Id, Category)>)
      requires Valid()
      modifies this`categories, this`nextId
      ensures Valid()
      ensures old(NameTaken(categories, name)) ==>
        r == Err(400, AlreadyExists) && categories == old(categories)
      ensures !old(NameTaken(categories, name)) ==>
        && r.Ok? && r.status == 201
        && r.body.0 !in old(categories)
        && r.body.1 == Category(name, description, image)
        && categories == old(categories)[r.body.0 := r.body.1]
    {
      if NameTaken(categories, name) {
        return Err(400, AlreadyExists);
      }
      var id := nextId;
      var created := Category(name, description, image);
      categories := categories[id := created];
      nextId := nextId + 1;
      r := Ok(201, (id, created));
    }

    /** `updateCategory`: 404 with no change for an unknown id; otherwise the
        merged record replaces that one entry and is returned. */
    method UpdateCategory(id: Id, name: Option<string>, description: Option<string>, image: Option<string>)
      returns (r: Response<Category>)
      requires Valid()
      modifies this`categories
      ensures Valid()
      ensures id !in old(categories) ==> r == Err(404, NotFound) && categories == old(categories)
      ensures id in old(categories) ==>
        && r == Ok(200, Merge(old(categories)[id], name, description, image))
        && categories == old(categories)[id := r.body]
    {
      if id in categories {
        var updated := Merge(categories[id], name, description, image);
        categories := categories[id := updated];
        r := Ok(200, updated);
      } else {
        r := Err(404, NotFound);
      }
    }

    /** `deleteCategory`: removes exactly that entry, whether or not products
        still refer to it; 404 with no change for an unknown id. */
    method DeleteCategory(id: Id) returns (r: Response<string>)
      requires Valid()
      modifies this`categories
      ensures Valid()
      ensures id !in old(categories) ==> r == Err(404, NotFound) && categories == old(categories)
      ensures id in old(categories) ==> r == Ok(200, Removed) && categories == old(categories) - {id}
      ensures products == old(products)
    {
      if id in categories {
        categories := categories - {id};
        r := Ok(200, Removed);
      } else {
        r := Err(404, NotFound);
      }
    }

    /** `getProductsByCategory`: 404 for an unknown category, otherwise the
        products filed under it, possibly none. */
    method GetProductsByCategory(id: Id) returns (r: Response<seq<StoredProduct>>)
      ensures id !in categories ==> r == Err(404, NotFound)
      ensures id in categories ==> r.Ok? && r.status == 200
      ensures id in categories ==> forall p :: p in r.body <==> p in products && p.category == id
      ensures id in categories ==> r.body == ProductsIn(products, id)
    {
      if id in categories {
        r := Ok(200, ProductsIn(products, id));
      } else {
        r := Err(404, NotFound);
      }
    }

    /** `getCategoryById`: the stored record, or 404. */
    method GetCategoryById(id: Id) returns (r: Response<Category>)
      ensures id in categories ==> r == Ok(200, categories[id])
      ensures id !in categories ==> r == Err(404, NotFound)
    {
      if id in categories {
        r := Ok(200, categories[id]);
      } else {
        r := Err(404, NotFound);
      }
    }
  }

  /** A category that products still refer to can be deleted; those products
      stay as they were, and the lookup by that id then answers 404. */
  method DeleteInUseExample() returns (deleted: Response<string>, lookup: Response<seq<StoredProduct>>)
    ensures deleted == Ok(200, Removed)
    ensures lookup == Err(404, NotFound)
  {
    var store := new CategoryStore(map[0 := Category("Vitamins", "", "")], 1,
                                   [StoredProduct(7, "Vitamin C", 0)]);
    deleted := store.DeleteCategory(0);
    assert store.products == [StoredProduct(7, "Vitamin C", 0)];
    lookup := store.GetProductsByCategory(0);
  }
}
