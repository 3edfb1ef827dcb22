/** The `categories` table as a nested-set forest: every category carries an
    interval [lft, rgt], and a category's subtree is exactly the categories whose
    intervals lie inside its own. One interval per vendor root; all endpoints of
    all vendors come from one global sequence. */
module NestedSet {
  import opened Common

  datatype Category = Category(
    id: nat,
    vendor: nat,
    parent: Option<nat>,
    name: string,
    lft: int,
    rgt: int)

  /** No endpoint of a is an endpoint of b. */
  predicate DistinctEnds(a: Category, b: Category) {
    a.lft != b.lft && a.lft != b.rgt && a.rgt != b.lft && a.rgt != b.rgt
  }

  predicate Disjoint(a: Category, b: Category) {
    a.rgt < b.lft || b.rgt < a.lft
  }

  /** a lies strictly inside b: a is a descendant of b. */
  predicate Inside(a: Category, b: Category) {
    b.lft < a.lft && a.rgt < b.rgt
  }

  /** The nested-set invariant: every interval is proper, no two intervals share
      an endpoint, and any two are either disjoint or one contains the other. */
  predicate WellNested(rows: seq<Category>) {
    && (forall i :: 0 <= i < |rows| ==> rows[i].lft < rows[i].rgt)
    && (forall i, j :: 0 <= i < |rows| && 0 <= j < |rows| && i != j ==>
          && DistinctEnds(rows[i], rows[j])
          && (Disjoint(rows[i], rows[j]) || Inside(rows[i], rows[j]) || Inside(rows[j], rows[i])))
  }

  predicate UniqueIds(rows: seq<Category>) {
    forall i, j :: 0 <= i < |rows| && 0 <= j < |rows| && i != j ==> rows[i].id != rows[j].id
  }

  // ---------------------------------------------------------------------------
  // Queries

  /** `WHERE category_id = id`: the position of the row with that id. */
  function IndexOfId(rows: seq<Category>, id: nat): (r: Option<nat>)
    ensures r.Some? ==> r.value < |rows| && rows[r.value].id == id
    ensures r.Some? ==> forall i :: 0 <= i < r.value ==> rows[i].id != id
    ensures r.None? ==> forall i :: 0 <= i < |rows| ==> rows[i].id != id
  {
    if rows == [] then None
    else if rows[0].id == id then Some(0)
    else match IndexOfId(rows[1..], id)
      case None => None
      case Some(k) => Some(k + 1)
  }

  /** `SELECT MAX(rgt) ... WHERE vendor_id = v`: the position of a row of vendor v
      with the largest right bound, or None when v has no rows. */
  function VendorMaxRow(rows: seq<Category>, v: nat): (r: Option<nat>)
    ensures r.Some? ==> r.value < |rows| && rows[r.value].vendor == v
    ensures r.Some? ==>
      forall i :: 0 <= i < |rows| && rows[i].vendor == v ==> rows[i].rgt <= rows[r.value].rgt
    ensures r.None? <==> forall i :: 0 <= i < |rows| ==> rows[i].vendor != v
  {
    if rows == [] then None
    else
      var prev := VendorMaxRow(rows[..|rows| - 1], v);
      var last := |rows| - 1;
      if rows[last].vendor != v then prev
      else if prev.Some? && rows[last].rgt <= rows[prev.value].rgt then prev
      else Some(last)
  }

  /** The first row of vendor v in table order (the row whose non-aggregated
      `category_id` the aggregate query reports), or None. */
  function VendorFirstRow(rows: seq<Category>, v: nat): (r: Option<nat>)
    ensures r.Some? ==> r.value < |rows| && rows[r.value].vendor == v
    ensures r.Some? ==> forall i :: 0 <= i < r.value ==> rows[i].vendor != v
    ensures r.None? <==> forall i :: 0 <= i < |rows| ==> rows[i].vendor != v
  {
    if rows == [] then None
    else if rows[0].vendor == v then Some(0)
    else match VendorFirstRow(rows[1..], v)
      case None => None
      case Some(k) => Some(k + 1)
  }

  /** `SELECT MAX(rgt) FROM categories`, with SQL NULL on an empty table read as 0
      (in the source `null + 1` is 1). */
  function MaxRgt(rows: seq<Category>): (m: int)
    ensures forall i :: 0 <= i < |rows| ==> rows[i].rgt <= m
    ensures rows == [] ==> m == 0
    ensures rows != [] ==> exists i :: 0 <= i < |rows| && rows[i].rgt == m
  {
    if rows == [] then 0
    else if |rows| == 1 then rows[0].rgt
    else
      var m := MaxRgt(rows[..|rows| - 1]);
      if rows[|rows| - 1].rgt > m then rows[|rows| - 1].rgt else m
  }

  /** `WHERE lft >= lo AND rgt <= hi`, in table order. */
  function Subtree(rows: seq<Category>, lo: int, hi: int): (r: seq<Category>)
    ensures forall c :: c in r <==> c in rows && lo <= c.lft && c.rgt <= hi
  {
    if rows == [] then []
    else
      var rest := Subtree(rows[1..], lo, hi);
      assert forall c :: c in rows <==> c == rows[0] || c in rows[1..];
      if lo <= rows[0].lft && rows[0].rgt <= hi then [rows[0]] + rest else rest
  }

  /** For a well-nested table the containment query returns exactly the category
      itself and its descendants. */
  lemma SubtreeIsDescendants(rows: seq<Category>, k: nat)
    requires WellNested(rows) && k < |rows|
    ensures forall j :: 0 <= j < |rows| ==>
      (rows[j] in Subtree(rows, rows[k].lft, rows[k].rgt) <==> j == k || Inside(rows[j], rows[k]))
  {
    forall j | 0 <= j < |rows| && j != k
      ensures rows[j] in Subtree(rows, rows[k].lft, rows[k].rgt) <==> Inside(rows[j], rows[k])
    {
      assert DistinctEnds(rows[j], rows[k]);
    }
  }

  // ---------------------------------------------------------------------------
  // Insert

  /** `UPDATE categories SET lft = lft + 2 WHERE lft > r` and
      `UPDATE categories SET rgt = rgt + 2 WHERE rgt > r - 1`, on one row. */
  function ShiftForInsert(c: Category, r: int): Category {
    c.(lft := if c.lft > r then c.lft + 2 else c.lft,
       rgt := if c.rgt > r - 1 then c.rgt + 2 else c.rgt)
  }

  /** Both range updates, then the new leaf [r, r + 1] appended. */
  function InsertLeaf(rows: seq<Category>, r: int, id: nat, vendor: nat, parent: Option<nat>, name: string)
    : (out: seq<Category>)
    ensures |out| == |rows| + 1
    ensures forall i :: 0 <= i < |rows| ==> out[i] == ShiftForInsert(rows[i], r)
    ensures out[|rows|] == Category(id, vendor, parent, name, r, r + 1)
  {
    seq(|rows|, i requires 0 <= i < |rows| => ShiftForInsert(rows[i], r))
      + [Category(id, vendor, parent, name, r, r + 1)]
  }

  /** Where an endpoint x goes when room is made at r (x is never r itself when
      it is a left bound). */
  function Up(x: int, r: int): int {
    if x >= r then x + 2 else x
  }

  /** Inserting a leaf at the right bound of an existing row keeps the table well
      nested, and the new leaf becomes the last child of that row. */
  lemma {:induction false} InsertLeafNested(
    rows: seq<Category>, t: nat, id: nat, vendor: nat, parent: Option<nat>, name: string)
    requires WellNested(rows) && t < |rows|
    ensures WellNested(InsertLeaf(rows, rows[t].rgt, id, vendor, parent, name))
    ensures var out := InsertLeaf(rows, rows[t].rgt, id, vendor, parent, name);
      Inside(out[|rows|], out[t]) && out[t].rgt == out[|rows|].rgt + 1
  {
    var r := rows[t].rgt;
    var out := InsertLeaf(rows, r, id, vendor, parent, name);
    var n := |rows|;
    forall i | 0 <= i < n
      ensures out[i].lft == Up(rows[i].lft, r) && out[i].rgt == Up(rows[i].rgt, r)
    {
      if i != t {
        assert DistinctEnds(rows[i], rows[t]);
      }
    }
    forall i, j | 0 <= i < |out| && 0 <= j < |out| && i != j
      ensures DistinctEnds(out[i], out[j])
      ensures Disjoint(out[i], out[j]) || Inside(out[i], out[j]) || Inside(out[j], out[i])
    {
      if i < n && j < n {
        assert DistinctEnds(rows[i], rows[j]);
        assert Disjoint(rows[i], rows[j]) || Inside(rows[i], rows[j]) || Inside(rows[j], rows[i]);
      } else if i < n {
        LeafAgainstRow(rows, t, i, out[i], out[j]);
      } else {
        LeafAgainstRow(rows, t, j, out[j], out[i]);
      }
    }
  }

  /** The new leaf against one shifted old row. */
  lemma LeafAgainstRow(rows: seq<Category>, t: nat, i: nat, shifted: Category, leaf: Category)
    requires WellNested(rows) && t < |rows| && i < |rows|
    requires shifted.lft == Up(rows[i].lft, rows[t].rgt) && shifted.rgt == Up(rows[i].rgt, rows[t].rgt)
    requires leaf.lft == rows[t].rgt && leaf.rgt == rows[t].rgt + 1
    ensures DistinctEnds(shifted, leaf) && DistinctEnds(leaf, shifted)
    ensures Disjoint(shifted, leaf) || Inside(leaf, shifted)
  {
    if i != t {
      assert DistinctEnds(rows[i], rows[t]);
    }
  }

  // ---------------------------------------------------------------------------
  // Delete

  /** `UPDATE ... SET lft = lft - 2 WHERE lft > r` and
      `UPDATE ... SET rgt = rgt - 2 WHERE rgt > r`, on one row. */
  function ShiftForDelete(c: Category, r: int): Category {
    c.(lft := if c.lft > r then c.lft - 2 else c.lft,
       rgt := if c.rgt > r then c.rgt - 2 else c.rgt)
  }

  /** Position in the table before row k was deleted. */
  function Before(j: nat, k: nat): nat {
    if j < k then j else j + 1
  }

  /** Row k deleted, then both range updates with its right bound. */
  function RemoveLeaf(rows: seq<Category>, k: nat): (out: seq<Category>)
    requires k < |rows|
    ensures |out| == |rows| - 1
    ensures forall j :: 0 <= j < |out| ==> out[j] == ShiftForDelete(rows[Before(j, k)], rows[k].rgt)
  {
    var rest := rows[..k] + rows[k + 1..];
    assert forall j :: 0 <= j < |rest| ==> rest[j] == rows[Before(j, k)];
    seq(|rest|, j requires 0 <= j < |rest| => ShiftForDelete(rest[j], rows[k].rgt))
  }

  function Down(x: int, r: int): int {
    if x > r then x - 2 else x
  }

  /** Removing a leaf keeps the table well nested. */
  lemma {:induction false} RemoveLeafNested(rows: seq<Category>, k: nat)
    requires WellNested(rows) && k < |rows| && rows[k].rgt - rows[k].lft == 1
    ensures WellNested(RemoveLeaf(rows, k))
  {
    var r := rows[k].rgt;
    var out := RemoveLeaf(rows, k);
    forall j | 0 <= j < |out|
      ensures out[j].lft < out[j].rgt
    {
      assert DistinctEnds(rows[Before(j, k)], rows[k]);
    }
    forall i, j | 0 <= i < |out| && 0 <= j < |out| && i != j
      ensures DistinctEnds(out[i], out[j])
      ensures Disjoint(out[i], out[j]) || Inside(out[i], out[j]) || Inside(out[j], out[i])
    {
      var a, b := rows[Before(i, k)], rows[Before(j, k)];
      assert DistinctEnds(a, rows[k]) && DistinctEnds(b, rows[k]);
      assert DistinctEnds(a, b);
      assert Disjoint(a, b) || Inside(a, b) || Inside(b, a);
      assert out[i].lft == Down(a.lft, r) && out[i].rgt == Down(a.rgt, r);
      assert out[j].lft == Down(b.lft, r) && out[j].rgt == Down(b.rgt, r);
    }
  }

  /** Inserting a leaf and deleting that same leaf gives back the table exactly:
      every other row's bounds are restored. */
  lemma InsertRemoveRoundTrip(rows: seq<Category>, r: int, id: nat, vendor: nat, parent: Option<nat>, name: string)
    ensures RemoveLeaf(InsertLeaf(rows, r, id, vendor, parent, name), |rows|) == rows
  {
    var mid := InsertLeaf(rows, r, id, vendor, parent, name);
    var out := RemoveLeaf(mid, |rows|);
    forall j | 0 <= j < |rows| ensures out[j] == rows[j] {
      assert out[j] == ShiftForDelete(ShiftForInsert(rows[j], r), r + 1);
    }
  }

  // ---------------------------------------------------------------------------
  // Vendor roots

  /** The root interval a newly registered vendor receives. */
  function RootFor(rows: seq<Category>, id: nat, vendor: nat, name: string): Category {
    Category(id, vendor, None, name, MaxRgt(rows) + 1, MaxRgt(rows) + 2)
  }

  /** Appending a new vendor root keeps the table well nested, and the root lies
      to the right of, and so is disjoint from, every existing interval. */
  lemma AppendRootNested(rows: seq<Category>, id: nat, vendor: nat, name: string)
    requires WellNested(rows)
    ensures WellNested(rows + [RootFor(rows, id, vendor, name)])
    ensures forall i :: 0 <= i < |rows| ==> rows[i].rgt < RootFor(rows, id, vendor, name).lft
  {
    var root := RootFor(rows, id, vendor, name);
    var out := rows + [root];
    forall i, j | 0 <= i < |out| && 0 <= j < |out| && i != j
      ensures DistinctEnds(out[i], out[j])
      ensures Disjoint(out[i], out[j]) || Inside(out[i], out[j]) || Inside(out[j], out[i])
    {
      if i < |rows| && j < |rows| {
        assert DistinctEnds(rows[i], rows[j]);
      }
    }
  }

  /** A vendor with root [1, 2] adds "Shoes" at top level, then "Sneakers" under
      it: the root widens to [1, 6], Shoes becomes [2, 5], Sneakers [3, 4]. */
  lemma ShoesSneakersScenario(root: Category)
    requires root.lft == 1 && root.rgt == 2
    ensures var one := InsertLeaf([root], 2, 2, root.vendor, Some(root.id), "Shoes");
      var two := InsertLeaf(one, one[1].rgt, 3, root.vendor, Some(2), "Sneakers");
      && one[1].lft == 2 && one[1].rgt == 3
      && two[0].lft == 1 && two[0].rgt == 6
      && two[1].lft == 2 && two[1].rgt == 5
      && two[2].lft == 3 && two[2].rgt == 4
  {
  }
}
