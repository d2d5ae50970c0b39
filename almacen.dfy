/** The warehouse screen of frontend/src/componentes/Dashboard/Almacen.js:
    who may enter, edit and delete; the product form with its edit and
    create modes; and the low-stock flag. Prices are integer cents. */
module Almacen {
  import opened JsValues
  import AdminUsers

  type ProductId = int

  const Admin := "admin"
  const InventoryManager := "inventory_manager"
  const LowStockLimit := 10
  const NotSignedIn := "No autenticado"
  const NoProfile := "Perfil no encontrado"
  const LoginRoute := "/login"
  const UnauthorizedRoute := "/unauthorized"
  const LoadPrefix := "Error al cargar productos: "
  const DeletePrefix := "Error al eliminar producto: "

  /** A `products` row. */
  datatype StockedProduct = StockedProduct(id: ProductId, name: string, description: string, price: int,
                                           stock: int, category: string)

  /** The form's fields, `formData`. */
  datatype ProductForm = ProductForm(name: string, description: string, price: int, stock: int, category: string)

  const EmptyForm := ProductForm("", "", 0, 0, "")

  // ---------------------------------------------------------------------------
  // Permissions and flags

  /** `['admin', 'inventory_manager'].includes(role)`: may enter the screen
      and edit. */
  predicate CanManage(role: Option<string>) {
    role == Some(Admin) || role == Some(InventoryManager)
  }

  /** `currentUserRole === 'admin'`: may delete. */
  predicate CanDelete(role: Option<string>) {
    role == Some(Admin)
  }

  /** `product.stock < 10`. */
  predicate LowStock(p: StockedProduct) {
    p.stock < LowStockLimit
  }

  /** Whoever may delete may also edit, and only the two warehouse roles may
      edit; an unloaded role may do neither. */
  lemma PermissionTable(role: Option<string>)
    ensures CanDelete(role) ==> CanManage(role)
    ensures CanManage(role) && !CanDelete(role) <==> role == Some(InventoryManager)
    ensures role.None? ==> !CanManage(role) && !CanDelete(role)
  {
  }

  // ---------------------------------------------------------------------------
  // The form against the table

  /** What `editProduct` copies into the form. */
  function FormOf(p: StockedProduct): (f: ProductForm)
    ensures f.name == p.name && f.description == p.description && f.price == p.price
    ensures f.stock == p.stock && f.category == p.category
  {
    ProductForm(p.name, p.description, p.price, p.stock, p.category)
  }

  /** A row after `update(formData)`: the five form fields replaced, the id kept. */
  function WithForm(p: StockedProduct, f: ProductForm): (q: StockedProduct)
    ensures q.id == p.id && FormOf(q) == f
  {
    StockedProduct(p.id, f.name, f.description, f.price, f.stock, f.category)
  }

  /** `update(formData).eq('id', id)` on `products`. */
  function UpdateRows(ps: seq<StockedProduct>, id: ProductId, f: ProductForm): (r: seq<StockedProduct>)
    ensures |r| == |ps|
  {
    seq(|ps|, i requires 0 <= i < |ps| => if ps[i].id == id then WithForm(ps[i], f) else ps[i])
  }

  /** An update touches the rows with that id, and nothing but their form
      fields. */
  lemma UpdateRowsSpec(ps: seq<StockedProduct>, id: ProductId, f: ProductForm)
    ensures forall i :: 0 <= i < |ps| ==> UpdateRows(ps, id, f)[i].id == ps[i].id
    ensures forall i :: 0 <= i < |ps| && ps[i].id == id ==> FormOf(UpdateRows(ps, id, f)[i]) == f
    ensures forall i :: 0 <= i < |ps| && ps[i].id != id ==> UpdateRows(ps, id, f)[i] == ps[i]
  {
  }

  /** Submitting an unedited form changes nothing: editing a row and saving
      writes back what was there. */
  lemma {:induction false} UneditedSubmitKeepsRows(ps: seq<StockedProduct>, p: StockedProduct)
    requires forall i :: 0 <= i < |ps| && ps[i].id == p.id ==> ps[i] == p
    ensures UpdateRows(ps, p.id, FormOf(p)) == ps
  {
    forall i | 0 <= i < |ps|
      ensures UpdateRows(ps, p.id, FormOf(p))[i] == ps[i]
    {
      if ps[i].id == p.id {
        assert WithForm(ps[i], FormOf(p)) == StockedProduct(p.id, p.name, p.description, p.price, p.stock, p.category);
      }
    }
  }

  /** `delete().eq('id', id)` on `products`. */
  function DeleteRows(ps: seq<StockedProduct>, id: ProductId): seq<StockedProduct> {
    Filter(ps, (p: StockedProduct) => p.id != id)
  }

  /** A delete removes exactly the rows with that id and keeps the others
      in order. */
  lemma DeleteRowsSpec(ps: seq<StockedProduct>, id: ProductId)
    ensures forall p :: p in DeleteRows(ps, id) <==> p in ps && p.id != id
    ensures Subsequence(DeleteRows(ps, id), ps)
  {
    FilterSpec(ps, (p: StockedProduct) => p.id != id);
  }

  /** The message `handleSubmit` shows when the store refuses. */
  function SubmitError(editing: bool, message: string): (e: string)
    ensures editing ==> e == "Error al actualizar producto: " + message
    ensures !editing ==> e == "Error al crear producto: " + message
  {
    "Error al " + (if editing then "actualizar" else "crear") + " producto: " + message
  }

  // ---------------------------------------------------------------------------
  // The store

  /** The `products` table, kept in the order the screen's query returns it
      (newest first). */
  class ProductsDb {
    var products: seq<StockedProduct>
    var nextId: ProductId

    ghost predicate Valid()
      reads this
    {
      forall i :: 0 <= i < |products| ==> products[i].id < nextId
    }

    /** An empty table, whose ids start at 1. */
    constructor()
      ensures Valid() && products == [] && nextId == 1
    {
      products := [];
      nextId := 1;
    }

    method ReadAll(failure: Option<string>) returns (r: Option<seq<StockedProduct>>)
      ensures r == if failure.Some? then None else Some(products)
    {
      if failure.Some? {
        return None;
      }
      return Some(products);
    }

    method Update(id: ProductId, f: ProductForm, failure: Option<string>)
      requires Valid()
      modifies this`products
      ensures Valid()
      ensures products == if failure.Some? then old(products) else UpdateRows(old(products), id, f)
    {
      if failure.None? {
        products := UpdateRows(products, id, f);
      }
    }

    /** `insert([formData])`: a new row with a fresh id, newest first. */
    method Insert(f: ProductForm, failure: Option<string>)
      requires Valid()
      modifies this
      ensures Valid()
      ensures failure.Some? ==> products == old(products) && nextId == old(nextId)
      ensures failure.None? ==>
        && products == [WithForm(StockedProduct(old(nextId), "", "", 0, 0, ""), f)] + old(products)
        && forall i :: 0 <= i < |old(products)| ==> old(products)[i].id != products[0].id
    {
      if failure.None? {
        products := [WithForm(StockedProduct(nextId, "", "", 0, 0, ""), f)] + products;
        nextId := nextId + 1;
      }
    }

    method Delete(id: ProductId, failure: Option<string>)
      requires Valid()
      modifies this`products
      ensures Valid()
      ensures products == if failure.Some? then old(products) else DeleteRows(old(products), id)
    {
      if failure.None? {
        DeleteRowsSpec(products, id);
        products := DeleteRows(products, id);
      }
    }
  }

  // ---------------------------------------------------------------------------
  // The screen

  /** Where `checkPermissionsAndFetch` ends. */
  datatype Entry = SentToLogin(message: string) | SentToUnauthorized(role: Option<string>) | Admitted

  /** The entry decision for the auth service's answer, the profiles table
      and the profile query's error. */
  function EntryOf(authUser: Option<string>, authError: Option<string>, ps: seq<AdminUsers.Profile>,
                   profileError: Option<string>): Entry
  {
    if authError.Some? || authUser.None? then SentToLogin(Or(authError, NotSignedIn))
    else if profileError.Some? || AdminUsers.ProfileOf(ps, authUser.value).None? then SentToLogin(Or(profileError, NoProfile))
    else if !CanManage(AdminUsers.ProfileOf(ps, authUser.value).value.role) then
      SentToUnauthorized(AdminUsers.ProfileOf(ps, authUser.value).value.role)
    else Admitted
  }

  /** Only a signed-in admin or inventory manager gets in; a missing user or
      profile is sent to the login page. */
  lemma EntryTable(authUser: Option<string>, authError: Option<string>, ps: seq<AdminUsers.Profile>,
                   profileError: Option<string>)
    ensures EntryOf(authUser, authError, ps, profileError).Admitted? ==>
      && authUser.Some? && authError.None? && profileError.None?
      && exists i :: 0 <= i < |ps| && ps[i].id == authUser.value && CanManage(ps[i].role)
    ensures authUser.None? ==> EntryOf(authUser, authError, ps, profileError).SentToLogin?
    ensures authUser.Some? && authError.None? && (forall i :: 0 <= i < |ps| ==> ps[i].id != authUser.value) ==>
      EntryOf(authUser, authError, ps, profileError) == SentToLogin(Or(profileError, NoProfile))
  {
    if authUser.Some? {
      AdminUsers.ProfileOfFinds(ps, authUser.value);
      var p := AdminUsers.ProfileOf(ps, authUser.value);
      if p.Some? {
        var i :| 0 <= i < |ps| && ps[i] == p.value;
      }
    }
  }

  class Warehouse {
    var products: seq<StockedProduct>
    var error: Option<string>
    var currentRole: Option<string>
    var loading: bool
    var route: Option<string>
    var form: ProductForm
    var updating: Option<StockedProduct>
    var showForm: bool

    /** `fetchProducts()`: its own failure is caught and reported. */
    method FetchProducts(db: ProductsDb, failure: Option<string>)
      modifies this`products, this`error
      ensures failure.None? ==> products == db.products && error == old(error)
      ensures failure.Some? ==> products == old(products) && error == Some(LoadPrefix + failure.value)
    {
      var rows := db.ReadAll(failure);
      if rows.None? {
        error := Some(LoadPrefix + failure.value);
        return;
      }
      products := rows.value;
    }

    /** `checkPermissionsAndFetch()` on entry. */
    method CheckPermissionsAndFetch(profiles: AdminUsers.ProfilesDb, db: ProductsDb, authUser: Option<string>,
                                    authError: Option<string>, profileError: Option<string>, loadFailure: Option<string>)
      modifies this`products, this`error, this`currentRole, this`loading, this`route
      ensures !loading
      ensures var e := EntryOf(authUser, authError, profiles.profiles, profileError);
        && (e.SentToLogin? ==>
              && route == Some(LoginRoute) && error == Some(e.message) && products == old(products)
              && currentRole == old(currentRole))
        && (e.SentToUnauthorized? ==>
              route == Some(UnauthorizedRoute) && currentRole == e.role && products == old(products) && error == old(error))
        && (e.Admitted? ==>
              && route == old(route) && CanManage(currentRole)
              && currentRole == AdminUsers.ProfileOf(profiles.profiles, authUser.value).value.role)
        && (e.Admitted? && loadFailure.None? ==> products == db.products && error == old(error))
        && (e.Admitted? && loadFailure.Some? ==>
              products == old(products) && error == Some(LoadPrefix + loadFailure.value))
    {
      loading := true;
      if authError.Some? || authUser.None? {
        error := Some(Or(authError, NotSignedIn));
        route := Some(LoginRoute);
        loading := false;
        return;
      }
      var profile := profiles.ReadProfile(authUser.value, profileError.Some?);
      if profile.None? {
        error := Some(Or(profileError, NoProfile));
        route := Some(LoginRoute);
        loading := false;
        return;
      }
      currentRole := profile.value.role;
      if !CanManage(currentRole) {
        route := Some(UnauthorizedRoute);
        loading := false;
        return;
      }
      FetchProducts(db, loadFailure);
      loading := false;
    }

    /** `editProduct(product)`. */
    method EditProduct(p: StockedProduct)
      modifies this`form, this`updating, this`showForm
      ensures form == FormOf(p) && updating == Some(p) && showForm
    {
      form := FormOf(p);
      updating := Some(p);
      showForm := true;
    }

    /** `resetForm()`. */
    method ResetForm()
      modifies this`form, this`updating, this`showForm
      ensures form == EmptyForm && updating.None? && !showForm
    {
      form := EmptyForm;
      updating := None;
      showForm := false;
    }

    /** The "add product" button: `setShowForm(!showForm)`. */
    method ToggleForm()
      modifies this`showForm
      ensures showForm == !old(showForm)
    {
      showForm := !showForm;
    }

    /** `handleSubmit()`: update the row being edited, or insert a new one;
        on success reload the list and reset the form, on failure keep the
        form and name the operation. */
    method HandleSubmit(db: ProductsDb, failure: Option<string>, reloadFailure: Option<string>)
      requires db.Valid()
      modifies this`products, this`error, this`form, this`updating, this`showForm, db
      ensures db.Valid()
      ensures updating.Some? ==> old(updating).Some?
      ensures failure.Some? ==>
        && db.products == old(db.products) && products == old(products)
        && form == old(form) && updating == old(updating) && showForm == old(showForm)
        && error == Some(SubmitError(old(updating).Some?, failure.value))
      ensures failure.None? ==>
        && (old(updating).Some? ==> db.products == UpdateRows(old(db.products), old(updating).value.id, old(form)))
        && (old(updating).None? ==> |db.products| == |old(db.products)| + 1 && db.products[1..] == old(db.products)
                                    && FormOf(db.products[0]) == old(form))
        && form == EmptyForm && updating.None? && !showForm
        && (reloadFailure.None? ==> products == db.products && error.None?)
        && (reloadFailure.Some? ==> products == old(products) && error == Some(LoadPrefix + reloadFailure.value))
    {
      error := None;
      if updating.Some? {
        db.Update(updating.value.id, form, failure);
      } else {
        db.Insert(form, failure);
      }
      if failure.Some? {
        error := Some(SubmitError(updating.Some?, failure.value));
        return;
      }
      FetchProducts(db, reloadFailure);
      ResetForm();
    }

    /** `deleteProduct(productId)`; `confirmed` is the answer to the
        confirmation dialog. The screen's role is not consulted here, only by
        the button. */
    method DeleteProduct(db: ProductsDb, id: ProductId, confirmed: bool, failure: Option<string>,
                         reloadFailure: Option<string>)
      requires db.Valid()
      modifies this`products, this`error, db`products
      ensures db.Valid()
      ensures !confirmed ==> db.products == old(db.products) && products == old(products) && error == old(error)
      ensures confirmed && failure.Some? ==>
        db.products == old(db.products) && products == old(products) && error == Some(DeletePrefix + failure.value)
      ensures confirmed && failure.None? ==>
        && db.products == DeleteRows(old(db.products), id)
        && (reloadFailure.None? ==> products == db.products && error == old(error))
        && (reloadFailure.Some? ==> products == old(products) && error == Some(LoadPrefix + reloadFailure.value))
    {
      if !confirmed {
        return;
      }
      db.Delete(id, failure);
      if failure.Some? {
        error := Some(DeletePrefix + failure.value);
        return;
      }
      FetchProducts(db, reloadFailure);
    }
  }
}
