/** The category routes' reads: where `add_category` inserts (version 1 with its
    cross-vendor check, version 2 without), which products `list_products` returns
    for a category, and the category table rules the writes keep. */
module Categories {
  import opened Common
  import opened NestedSet
  import opened Tables

  /** Where a new category goes: the row at whose right bound it is inserted,
      and the parent_id it records. */
  datatype Target = Target(row: nat, parent: Option<nat>)

  datatype Lookup = Found(target: Target) | Refused(error: Error)

  /** Version 1. Without a parent id (0 is falsy) the target is the vendor's row
      with the largest right bound, and the parent recorded is the bare category id
      the aggregate query returns alongside. Under a permissive SQL mode MySQL may
      take it from any row of the vendor; the model takes the vendor's first row,
      and its contract promises only some row of the vendor. With one,
      the target is that category, which must belong to the vendor. A vendor
      without rows makes the aggregate's vendor_id NULL, which also fails the
      vendor check. */
  function TargetV1(rows: seq<Category>, vendor: nat, parentId: nat): (r: Lookup)
    ensures r.Found? ==> r.target.row < |rows| && rows[r.target.row].vendor == vendor
    ensures r.Found? && parentId != 0 ==>
      rows[r.target.row].id == parentId && r.target.parent == Some(parentId)
    ensures r.Found? && parentId == 0 ==>
      && (forall i :: 0 <= i < |rows| && rows[i].vendor == vendor ==> rows[i].rgt <= rows[r.target.row].rgt)
      && (exists i :: 0 <= i < |rows| && rows[i].vendor == vendor && r.target.parent == Some(rows[i].id))
    ensures parentId == 0 ==> (r.Found? <==> exists i :: 0 <= i < |rows| && rows[i].vendor == vendor)
    ensures r == Refused(NotFound) <==> parentId != 0 && forall i :: 0 <= i < |rows| ==> rows[i].id != parentId
    ensures r.Refused? ==> r.error == NotFound || r.error == ForeignParent
    ensures UniqueIds(rows) && parentId != 0 ==>
      (r == Refused(ForeignParent) <==> exists i :: 0 <= i < |rows| && rows[i].id == parentId && rows[i].vendor != vendor)
  {
    if parentId == 0 then
      match VendorMaxRow(rows, vendor)
      case None => Refused(ForeignParent)
      case Some(t) =>
        var first := VendorFirstRow(rows, vendor).value;
        Found(Target(t, Some(rows[first].id)))
    else
      match IndexOfId(rows, parentId)
      case None => Refused(NotFound)
      case Some(k) => if rows[k].vendor != vendor then Refused(ForeignParent) else Found(Target(k, Some(parentId)))
  }

  /** Version 2: no vendor check, and parent_id is stored as given (NULL when
      absent). The model records no parent for parentId 0, which stands for an
      absent parent_id; an explicit parent_id of 0 takes the same branch but is
      stored as 0. A vendor without rows has no insertion point: the
      aggregate's right bound is NULL. */
  function TargetV2(rows: seq<Category>, vendor: nat, parentId: nat): (r: Lookup)
    ensures r.Found? ==> r.target.row < |rows|
    ensures r.Found? && parentId != 0 ==>
      rows[r.target.row].id == parentId && r.target.parent == Some(parentId)
    ensures r.Found? && parentId == 0 ==>
      && rows[r.target.row].vendor == vendor
      && (forall i :: 0 <= i < |rows| && rows[i].vendor == vendor ==> rows[i].rgt <= rows[r.target.row].rgt)
      && r.target.parent == None
    ensures parentId == 0 ==> (r == Refused(NoVendorRoot) <==> forall i :: 0 <= i < |rows| ==> rows[i].vendor != vendor)
    ensures parentId != 0 ==> (r == Refused(NotFound) <==> forall i :: 0 <= i < |rows| ==> rows[i].id != parentId)
    ensures r.Refused? ==> r.error == NotFound || r.error == NoVendorRoot
  {
    if parentId == 0 then
      match VendorMaxRow(rows, vendor)
      case None => Refused(NoVendorRoot)
      case Some(t) => Found(Target(t, None))
    else
      match IndexOfId(rows, parentId)
      case None => Refused(NotFound)
      case Some(k) => Found(Target(k, Some(parentId)))
  }

  /** With a parent id the two versions pick the same row; version 1 refuses
      exactly the parents of other vendors that version 2 lets through. */
  lemma TargetsAgreeOnOwnParent(rows: seq<Category>, vendor: nat, parentId: nat)
    requires parentId != 0
    ensures TargetV1(rows, vendor, parentId).Found? ==>
      TargetV2(rows, vendor, parentId) == TargetV1(rows, vendor, parentId)
    ensures TargetV2(rows, vendor, parentId).Found? <==>
      TargetV1(rows, vendor, parentId).Found? || TargetV1(rows, vendor, parentId) == Refused(ForeignParent)
  {
  }

  // ---------------------------------------------------------------------------
  // Category table rules

  /** Adding a leaf with the next id keeps the category rules. */
  lemma AddCategoryValid(rows: seq<Category>, next: nat, t: nat, vendor: nat, parent: Option<nat>, name: string)
    requires CategoriesValid(rows, next) && t < |rows|
    ensures CategoriesValid(InsertLeaf(rows, rows[t].rgt, next, vendor, parent, name), next + 1)
  {
    var out := InsertLeaf(rows, rows[t].rgt, next, vendor, parent, name);
    InsertLeafNested(rows, t, next, vendor, parent, name);
    forall i, j | 0 <= i < |out| && 0 <= j < |out| && i != j ensures out[i].id != out[j].id {
      if i < |rows| && j < |rows| {
        assert out[i].id == rows[i].id && out[j].id == rows[j].id;
      } else if i < |rows| {
        assert out[i].id == rows[i].id;
      } else {
        assert out[j].id == rows[j].id;
      }
    }
  }

  /** Deleting a leaf keeps the category rules and removes exactly that category:
      no remaining row has its id. */
  lemma DeleteCategoryValid(rows: seq<Category>, next: nat, k: nat)
    requires CategoriesValid(rows, next) && k < |rows| && rows[k].rgt - rows[k].lft == 1
    ensures CategoriesValid(RemoveLeaf(rows, k), next)
    ensures forall j :: 0 <= j < |RemoveLeaf(rows, k)| ==> RemoveLeaf(rows, k)[j].id != rows[k].id
  {
    var out := RemoveLeaf(rows, k);
    RemoveLeafNested(rows, k);
    forall i | 0 <= i < |out| ensures out[i].id == rows[Before(i, k)].id && Before(i, k) != k {
    }
    forall i, j | 0 <= i < |out| && 0 <= j < |out| && i != j ensures out[i].id != out[j].id {
      assert Before(i, k) != Before(j, k);
    }
  }

  /** Appending a vendor root with the next id keeps the category rules. */
  lemma RegisterRootValid(rows: seq<Category>, next: nat, vendor: nat, name: string)
    requires CategoriesValid(rows, next)
    ensures CategoriesValid(rows + [RootFor(rows, next, vendor, name)], next + 1)
  {
    AppendRootNested(rows, next, vendor, name);
  }

  // ---------------------------------------------------------------------------
  // Listing

  /** Some category of the containment query has this id. */
  predicate InSubtree(rows: seq<Category>, categoryId: nat, lo: int, hi: int) {
    exists c :: c in Subtree(rows, lo, hi) && c.id == categoryId
  }

  /** `products JOIN (categories WHERE lft >= L AND rgt <= R)` for the category
      at position k. */
  function CategoryProducts(rows: seq<Category>, products: map<nat, Product>, k: nat): map<nat, Product>
    requires k < |rows|
  {
    map p | p in products && InSubtree(rows, products[p].category, rows[k].lft, rows[k].rgt) :: products[p]
  }

  /** The listing holds exactly the products of the category and of its
      descendants, unchanged. */
  lemma CategoryProductsAreDescendants(rows: seq<Category>, products: map<nat, Product>, k: nat)
    requires WellNested(rows) && k < |rows|
    ensures forall p :: p in CategoryProducts(rows, products, k) <==>
      p in products && exists j :: 0 <= j < |rows| && rows[j].id == products[p].category && (j == k || Inside(rows[j], rows[k]))
    ensures forall p :: p in CategoryProducts(rows, products, k) ==> CategoryProducts(rows, products, k)[p] == products[p]
  {
    SubtreeIsDescendants(rows, k);
    var listed := CategoryProducts(rows, products, k);
    forall p | p in products
      ensures InSubtree(rows, products[p].category, rows[k].lft, rows[k].rgt) <==>
        exists j :: 0 <= j < |rows| && rows[j].id == products[p].category && (j == k || Inside(rows[j], rows[k]))
    {
      var sub := Subtree(rows, rows[k].lft, rows[k].rgt);
      if InSubtree(rows, products[p].category, rows[k].lft, rows[k].rgt) {
        var c :| c in sub && c.id == products[p].category;
        var j :| 0 <= j < |rows| && rows[j] == c;
        assert rows[j].id == products[p].category && (j == k || Inside(rows[j], rows[k]));
      }
      if exists j :: 0 <= j < |rows| && rows[j].id == products[p].category && (j == k || Inside(rows[j], rows[k])) {
        var j :| 0 <= j < |rows| && rows[j].id == products[p].category && (j == k || Inside(rows[j], rows[k]));
        assert rows[j] in sub;
      }
    }
  }
}
