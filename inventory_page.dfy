/** The inventory page: the search over product names, the controls each role sees,
    and what the table area shows for the store's flags. */
module InventoryPage {
  import opened Common
  import opened Types

  /** The search test: the lower-cased name contains the lower-cased term. */
  predicate Matches(product: Product, searchTerm: string) {
    Includes(Lower(product.name), Lower(searchTerm))
  }

  /** `filteredProducts`: the products whose name matches the search term, in store order. */
  function FilteredProducts(products: seq<Product>, searchTerm: string): (r: seq<Product>)
    ensures |r| <= |products|
    ensures forall j :: 0 <= j < |r| ==> Matches(r[j], searchTerm)
  {
    Filter(products, (p: Product) => Matches(p, searchTerm))
  }

  /** A product is listed exactly when it is in the store and matches, and the listing
      keeps the store's order. */
  lemma FilteredProductsExactly(products: seq<Product>, searchTerm: string)
    ensures forall p :: p in FilteredProducts(products, searchTerm) <==>
      p in products && Includes(Lower(p.name), Lower(searchTerm))
    ensures IsSubsequence(FilteredProducts(products, searchTerm), products)
  {
    var keep := (p: Product) => Matches(p, searchTerm);
    forall p {
      FilterMembership(products, keep, p);
    }
    FilterIsSubsequence(products, keep);
  }

  /** An empty search lists every product. */
  lemma EmptySearchShowsAll(products: seq<Product>)
    ensures FilteredProducts(products, "") == products
  {
    forall j | 0 <= j < |products|
      ensures Matches(products[j], "")
    {
      IncludesEmpty(Lower(products[j].name));
    }
    FilterAll(products, (p: Product) => Matches(p, ""));
  }

  /** Terms that differ only in the case of ASCII letters list the same products. */
  lemma SearchIgnoresCase(products: seq<Product>, term: string, term': string)
    requires Lower(term) == Lower(term')
    ensures FilteredProducts(products, term) == FilteredProducts(products, term')
  {
    FilterSameTest(products, (p: Product) => Matches(p, term), (p: Product) => Matches(p, term'));
  }

  /** A hay that contains `a + b` contains `a`. */
  lemma IncludesPrefix(hay: string, a: string, b: string)
    requires Includes(hay, a + b)
    ensures Includes(hay, a)
  {
    var i :| 0 <= i <= |hay| - |a + b| && OccursAt(hay, a + b, i);
    assert hay[i..i + |a|] == (a + b)[..|a|] == a;
    assert OccursAt(hay, a, i);
  }

  /** Typing more characters never brings back a product the shorter term hid. */
  lemma LongerTermNarrows(products: seq<Product>, term: string, more: string)
    ensures forall p :: p in FilteredProducts(products, term + more) ==>
      p in FilteredProducts(products, term)
  {
    LowerAppend(term, more);
    FilteredProductsExactly(products, term + more);
    FilteredProductsExactly(products, term);
    forall p | p in FilteredProducts(products, term + more)
      ensures p in FilteredProducts(products, term)
    {
      IncludesPrefix(Lower(p.name), Lower(term), Lower(more));
    }
  }

  /** The "Add Product" button: admins and managers. */
  predicate ShowAddProduct(role: Option<string>) {
    role == Some("admin") || role == Some("manager")
  }

  /** The "Actions" column: admins only. */
  predicate ShowActions(role: Option<string>) {
    role == Some("admin")
  }

  /** The controls by the role of the signed-in user: an admin sees both, a manager only
      the button, anyone else (a cashier, an unknown role, no user) neither; whoever sees
      the column sees the button. */
  lemma ControlsByRole(user: Option<User>)
    ensures RoleOf(user) == Some("admin") ==> ShowAddProduct(RoleOf(user)) && ShowActions(RoleOf(user))
    ensures RoleOf(user) == Some("manager") ==> ShowAddProduct(RoleOf(user)) && !ShowActions(RoleOf(user))
    ensures RoleOf(user) !in {Some("admin"), Some("manager")} ==>
      !ShowAddProduct(RoleOf(user)) && !ShowActions(RoleOf(user))
    ensures user.None? ==> !ShowAddProduct(RoleOf(user))
    ensures ShowActions(RoleOf(user)) ==> ShowAddProduct(RoleOf(user))
  {
  }

  /** What the table area shows. */
  datatype Body = LoadingMessage | ErrorMessage(message: string) | Table(rows: seq<Product>)

  /** Loading wins over an error, and an error over the table; an empty error string is
      falsy and shows the table. */
  function PageBody(loading: bool, error: Option<string>, products: seq<Product>, searchTerm: string): (r: Body)
    ensures r.LoadingMessage? <==> loading
    ensures r.ErrorMessage? <==> !loading && TruthyString(error)
    ensures r.ErrorMessage? ==> r.message == error.value
    ensures r.Table? ==> r.rows == FilteredProducts(products, searchTerm)
  {
    if loading then LoadingMessage
    else if TruthyString(error) then ErrorMessage(error.value)
    else Table(FilteredProducts(products, searchTerm))
  }
}
