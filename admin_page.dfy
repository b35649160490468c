/**
 * The decision logic of the admin panel (src/pages/Admin.tsx): its search
 * filter, the defaults of the add form, the prefill of the edit form, the
 * submit handler's validation, discount normalisation and choice between
 * addProduct and updateProduct, and the category options of the form.
 */
module Admin {
  import opened Wrappers
  import opened ProductService
  import opened Search

  /** The form state; the discount field holds 0 when there is no discount. */
  datatype FormData = FormData(
    name: string,
    description: string,
    price: int,
    discountPrice: int,
    image: string,
    category: Category,
    featured: bool,
    inStock: bool)

  /** openAddModal: an empty form. */
  const AddFormDefaults := FormData("", "", 0, 0, "", Vestidos, false, true)

  /** openEditModal: the form filled from the product, with `discountPrice || 0`. */
  function EditPrefill(p: Product): FormData
  {
    FormData(p.name, p.description, p.price,
             if p.discountPrice.Some? && p.discountPrice.value != 0 then p.discountPrice.value else 0,
             p.image, p.category, p.featured, p.inStock)
  }

  /** The submit guard: name, description and image non-empty and a positive price. */
  predicate RequiredFieldsPresent(f: FormData)
  {
    f.name != "" && f.description != "" && f.image != "" && f.price > 0
  }

  /** The discount sent to the store: kept only when it is between zero and the price. */
  function NormalizedDiscount(f: FormData): Option<int>
  {
    if f.discountPrice > 0 && f.discountPrice < f.price then Some(f.discountPrice) else None
  }

  /** The one store call a submit makes. */
  datatype StoreCall = AddProductCall(data: ProductData) | UpdateProductCall(id: string, patch: Patch)

  /** `{...formData, discountPrice}` as the argument of addProduct. */
  function FormProductData(f: FormData): ProductData
  {
    ProductData(f.name, f.description, f.price, NormalizedDiscount(f), f.image, f.category,
                f.featured, f.inStock)
  }

  /** `{...formData, discountPrice}` as the argument of updateProduct: every form field is supplied. */
  function FormPatch(f: FormData): Patch
  {
    Patch(None, Some(f.name), Some(f.description), Some(f.price), Some(NormalizedDiscount(f)),
          Some(f.image), Some(f.category), Some(f.featured), Some(f.inStock), None)
  }

  /** handleSubmit: no call for an incomplete form, else update when editing and add otherwise. */
  function SubmitCall(f: FormData, editing: Option<Product>): Option<StoreCall>
  {
    if !RequiredFieldsPresent(f) then None
    else match editing
      case Some(p) => Some(UpdateProductCall(p.id, FormPatch(f)))
      case None => Some(AddProductCall(FormProductData(f)))
  }

  /** The product an accepted submit writes, given the product it replaces or the fresh id and time. */
  function WrittenProduct(call: StoreCall, replaced: Product, freshId: string, now: int): Product
  {
    match call
    case AddProductCall(data) => NewProduct(data, freshId, now)
    case UpdateProductCall(_, patch) => Patched(replaced, patch)
  }

  /**
   * A submit calls the store exactly when the required fields are present;
   * the call is updateProduct on the edited product's id when editing (with
   * neither id nor createdAt supplied) and addProduct otherwise.
   */
  lemma SubmitDispatch(f: FormData, editing: Option<Product>)
    ensures SubmitCall(f, editing).None? <==> !RequiredFieldsPresent(f)
    ensures RequiredFieldsPresent(f) && editing.Some? ==>
      SubmitCall(f, editing) == Some(UpdateProductCall(editing.value.id, FormPatch(f))) &&
      FormPatch(f).id.None? && FormPatch(f).createdAt.None?
    ensures RequiredFieldsPresent(f) && editing.None? ==>
      SubmitCall(f, editing) == Some(AddProductCall(FormProductData(f)))
  {
  }

  /**
   * Every product an accepted submit writes carries the form's fields, a
   * positive price, non-empty name, description and image, and either no
   * discount or a valid one, so its effective price follows the admin form's
   * rule; the form's discount survives exactly when it is valid.
   */
  lemma SubmittedProductWellFormed(f: FormData, editing: Option<Product>, replaced: Product,
                                   freshId: string, now: int)
    requires SubmitCall(f, editing).Some?
    ensures var p := WrittenProduct(SubmitCall(f, editing).value, replaced, freshId, now);
      && p.name == f.name && p.description == f.description && p.image == f.image
      && p.price == f.price && p.category == f.category
      && p.featured == f.featured && p.inStock == f.inStock
      && p.price > 0 && p.name != "" && p.description != "" && p.image != ""
      && DiscountWellFormed(p)
      && (p.discountPrice == Some(f.discountPrice) <==> 0 < f.discountPrice < f.price)
      && EffectivePrice(p) == ValidDiscountPrice(p)
  {
    var p := WrittenProduct(SubmitCall(f, editing).value, replaced, freshId, now);
    EffectivePriceAgreesWithValidDiscount(p);
  }

  /** Submitting the untouched add form is rejected: it has an empty name and price 0. */
  lemma AddDefaultsRejected(editing: Option<Product>)
    ensures !RequiredFieldsPresent(AddFormDefaults)
    ensures SubmitCall(AddFormDefaults, editing) == None
  {
  }

  /**
   * Re-submitting an unchanged edit form keeps a valid discount and drops any
   * other: the product written back is the edited one with only its discount
   * normalised (identity and timestamp untouched).
   */
  lemma EditResubmit(p: Product)
    requires RequiredFieldsPresent(EditPrefill(p))
    ensures NormalizedDiscount(EditPrefill(p)) == (if HasValidDiscount(p) then p.discountPrice else None)
    ensures SubmitCall(EditPrefill(p), Some(p)) == Some(UpdateProductCall(p.id, FormPatch(EditPrefill(p))))
    ensures Patched(p, FormPatch(EditPrefill(p))) ==
            p.(discountPrice := if HasValidDiscount(p) then p.discountPrice else None)
    ensures DiscountWellFormed(p) ==> Patched(p, FormPatch(EditPrefill(p))) == p
  {
  }

  /** `categories.slice(1)`. */
  function CategoryOptions(categories: seq<Category>): seq<Category>
  {
    if categories == [] then [] else categories[1..]
  }

  /** The form offers every category but "todos", which the store lists first. */
  lemma CategoryOptionsExcludeTodos()
    ensures Todos !in CategoryOptions(AllCategories)
    ensures forall c :: c != Todos ==> c in CategoryOptions(AllCategories)
    ensures AddFormDefaults.category in CategoryOptions(AllCategories)
  {
    assert CategoryOptions(AllCategories) == [Vestidos, Saias, Blusas, Calcas, Acessorios];
  }

  /** The admin table: all products for the empty term, else those matching it. */
  function AdminSearch(products: seq<Product>, term: string): seq<Product>
  {
    if term != "" then SearchFilter(products, term) else products
  }

  /**
   * With the empty term the table is the store's list; otherwise it holds
   * exactly the products that match, in store order, none more often than
   * the store holds it.
   */
  lemma AdminSearchSpec(products: seq<Product>, term: string)
    ensures term == "" ==> AdminSearch(products, term) == products
    ensures forall p :: p in AdminSearch(products, term) <==> p in products && MatchesSearch(p, term)
    ensures multiset(AdminSearch(products, term)) <= multiset(products)
    ensures forall a, b :: AdminSearch(a + b, term) == AdminSearch(a, term) + AdminSearch(b, term)
  {
    if term == "" {
      assert forall p :: MatchesSearch(p, term) by {
        forall p ensures MatchesSearch(p, term) {
          assert Lower(term) == "";
        }
      }
    } else {
      forall a, b ensures AdminSearch(a + b, term) == AdminSearch(a, term) + AdminSearch(b, term) {
        SearchFilterAppend(a, b, term);
      }
    }
  }

  /**
   * handleSubmit against the store: one call as SubmitCall decides, or none.
   * The cart is never touched, and every product that was not in the list
   * before has a valid discount or none.
   */
  method HandleSubmit(store: Store, f: FormData, editing: Option<Product>, freshId: string, now: int)
    requires store.Valid()
    requires editing.None? ==> !HasProductId(store.products, freshId)
    modifies store
    ensures store.Valid()
    ensures store.cart == old(store.cart)
    ensures match SubmitCall(f, editing)
      case None => store.products == old(store.products)
      case Some(AddProductCall(data)) => store.products == old(store.products) + [NewProduct(data, freshId, now)]
      case Some(UpdateProductCall(id, patch)) => store.products == UpdatedProducts(old(store.products), id, patch)
    ensures forall p :: p in store.products && p !in old(store.products) ==> DiscountWellFormed(p)
  {
    var call := SubmitCall(f, editing);
    match call
    case None =>
    case Some(AddProductCall(data)) =>
      store.AddProduct(data, freshId, now);
      SubmittedProductWellFormed(f, editing, NewProduct(data, freshId, now), freshId, now);
    case Some(UpdateProductCall(id, patch)) =>
      ghost var before := store.products;
      store.UpdateProduct(id, patch);
      forall p | p in store.products && p !in before ensures DiscountWellFormed(p) {
        var i :| 0 <= i < |store.products| && store.products[i] == p;
        assert before[i].id == id;
        SubmittedProductWellFormed(f, editing, before[i], freshId, now);
      }
  }
}
