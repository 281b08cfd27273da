/** pharmacy/models.py and the pure parts of pharmacy/views.py: medicines,
    prescriptions and their items, dispensing carts, the `medicine_search`
    filter, cart totals and the stock run of `dispense_medicines`.
    Table rows are identified by their index (the auto primary key);
    amounts are integer cents. */
module Pharmacy {
  import opened Common
  import opened Users

  datatype Medicine = Medicine(
    medicineId: string,
    name: string,
    genericName: string,
    stock: int,
    reorderLevel: int,
    unitPrice: int,
    isActive: bool)

  /** A medicine created with only its required fields. */
  function NewMedicine(medicineId: string, name: string, genericName: string, unitPrice: int): (m: Medicine)
    ensures m.stock == 0 && m.reorderLevel == 10 && m.isActive
    ensures m.medicineId == medicineId && m.name == name && m.genericName == genericName && m.unitPrice == unitPrice
  {
    Medicine(medicineId, name, genericName, 0, 10, unitPrice, true)
  }

  datatype RxStatus = Pending | UnderReview | Ready | Dispensed | Cancelled

  function RxStatusCode(s: RxStatus): string
  {
    match s
    case Pending => "PENDING"
    case UnderReview => "UNDER_REVIEW"
    case Ready => "READY"
    case Dispensed => "DISPENSED"
    case Cancelled => "CANCELLED"
  }

  /** `visit` is the visit_id of the (one-to-one) visit. */
  datatype Prescription = Prescription(visit: string, prescribedBy: UserId, status: RxStatus, totalCost: int)

  /** A prescription saved with only its visit and prescriber. */
  function NewPrescription(visit: string, prescribedBy: UserId): (p: Prescription)
    ensures p.status == Pending && p.totalCost == 0
    ensures p.visit == visit && p.prescribedBy == prescribedBy
  {
    Prescription(visit, prescribedBy, Pending, 0)
  }

  /** `prescription` is a prescription_id, `medicine` a medicine row. */
  datatype PrescriptionItem = PrescriptionItem(prescription: string, medicine: nat, quantity: int, unitPrice: int, totalPrice: int)

  /** A dispensing cart. Carts are keyed by their prescription, which the
      one-to-one field makes unique among all carts. */
  datatype Cart = Cart(pharmacist: UserId, totalAmount: int, isActive: bool, createdAt: int)

  /** `cart` is the cart's prescription_id, `item` a prescription item row. */
  datatype CartItem = CartItem(id: nat, cart: string, item: nat, quantity: int, subtotal: int)

  // ------------------------------------------------------------ medicine_search

  const SearchLimit: nat := 10

  /** One medicine row answers a search for `q`. */
  predicate SearchMatch(m: Medicine, q: string)
  {
    (IContains(m.name, q) || IContains(m.genericName, q) || IContains(m.medicineId, q))
    && m.stock > 0 && m.isActive
  }

  /** The matching rows among the first n, in table order. */
  function Matching(meds: seq<Medicine>, q: string, n: nat): (ids: seq<nat>)
    requires n <= |meds|
    ensures forall k :: 0 <= k < |ids| ==> ids[k] < n
    ensures |ids| <= n
  {
    if n == 0 then []
    else Matching(meds, q, n - 1) + (if SearchMatch(meds[n - 1], q) then [n - 1] else [])
  }

  lemma {:induction false} MatchingMembers(meds: seq<Medicine>, q: string, n: nat)
    requires n <= |meds|
    ensures forall id: nat :: id in Matching(meds, q, n) <==> id < n && SearchMatch(meds[id], q)
  {
    if n > 0 {
      MatchingMembers(meds, q, n - 1);
      var prev := Matching(meds, q, n - 1);
      var last := if SearchMatch(meds[n - 1], q) then [n - 1] else [];
      assert Matching(meds, q, n) == prev + last;
      assert forall id :: id in prev + last <==> id in prev || id in last;
    }
  }

  lemma {:induction false} MatchingIncreasing(meds: seq<Medicine>, q: string, n: nat)
    requires n <= |meds|
    ensures StrictlyIncreasing(Matching(meds, q, n))
  {
    if n > 0 {
      MatchingIncreasing(meds, q, n - 1);
      var prev := Matching(meds, q, n - 1);
      var last := if SearchMatch(meds[n - 1], q) then [n - 1] else [];
      var ids := prev + last;
      forall i, j | 0 <= i < j < |ids| ensures ids[i] < ids[j] {
        if j >= |prev| {
          assert ids[i] == prev[i] < n - 1 == ids[j];
        } else {
          assert ids[i] == prev[i] && ids[j] == prev[j];
        }
      }
    }
  }

  /** medicine_search: nothing for a query under two characters, otherwise
      the first ten matching rows. */
  function MedicineSearch(meds: seq<Medicine>, q: string): (found: seq<nat>)
    ensures |q| < 2 ==> found == []
    ensures |found| <= SearchLimit
    ensures forall k :: 0 <= k < |found| ==> found[k] < |meds| && SearchMatch(meds[found[k]], q)
    ensures StrictlyIncreasing(found)
  {
    if |q| < 2 then []
    else
      var all := Matching(meds, q, |meds|);
      MatchingMembers(meds, q, |meds|);
      MatchingIncreasing(meds, q, |meds|);
      var found := if |all| <= SearchLimit then all else all[..SearchLimit];
      assert forall k :: 0 <= k < |found| ==> found[k] == all[k];
      assert forall k :: 0 <= k < |found| ==> found[k] in all;
      found
  }

  /** A matching medicine is left out only when ten others were already found
      ahead of it. */
  lemma MedicineSearchComplete(meds: seq<Medicine>, q: string, i: nat)
    requires |q| >= 2 && i < |meds| && SearchMatch(meds[i], q)
    ensures i in MedicineSearch(meds, q) || |MedicineSearch(meds, q)| == SearchLimit
  {
    var all := Matching(meds, q, |meds|);
    MatchingMembers(meds, q, |meds|);
    assert i in all;
    if |all| <= SearchLimit {
      assert MedicineSearch(meds, q) == all;
    }
  }

  // ------------------------------------------------------------ items and carts

  /** `unique_together = ['prescription', 'medicine']`. */
  predicate UniqueItems(items: seq<PrescriptionItem>)
  {
    forall i, j :: 0 <= i < j < |items| ==>
      !(items[i].prescription == items[j].prescription && items[i].medicine == items[j].medicine)
  }

  /** The item row for (prescription, medicine), if any (the last one, should
      the constraint ever be broken). */
  function FindItem(items: seq<PrescriptionItem>, pid: string, med: nat): (r: Option<nat>)
    ensures r.Some? ==> r.value < |items| && items[r.value].prescription == pid && items[r.value].medicine == med
    ensures r.Some? ==> forall j :: r.value < j < |items| ==> !(items[j].prescription == pid && items[j].medicine == med)
    ensures r.None? ==> forall j :: 0 <= j < |items| ==> !(items[j].prescription == pid && items[j].medicine == med)
  {
    if items == [] then None
    else if items[|items| - 1].prescription == pid && items[|items| - 1].medicine == med then Some(|items| - 1)
    else FindItem(items[..|items| - 1], pid, med)
  }

  /** The PrescriptionItem step of add_to_cart: a new row with `qty` at `price`,
      or the existing row with `qty` more and its total recomputed. */
  function UpsertItem(items: seq<PrescriptionItem>, pid: string, med: nat, qty: int, price: int): (r: seq<PrescriptionItem>)
    ensures FindItem(items, pid, med).None? ==> |r| == |items| + 1
    ensures FindItem(items, pid, med).Some? ==> |r| == |items|
    ensures FindItem(items, pid, med).None? ==> FindItem(r, pid, med) == Some(|items|)
    ensures FindItem(items, pid, med).Some? ==> FindItem(r, pid, med) == FindItem(items, pid, med)
    ensures FindItem(r, pid, med).Some?
    ensures var k := FindItem(r, pid, med).value;
      var before := if k < |items| then items[k].quantity else 0;
      r[k].quantity == before + qty
      && r[k].totalPrice == r[k].unitPrice * r[k].quantity
      && (k < |items| ==> r[k].unitPrice == items[k].unitPrice)
      && (k == |items| ==> r[k].unitPrice == price)
      && forall j :: 0 <= j < |items| && j != k ==> r[j] == items[j]
    ensures UniqueItems(items) ==> UniqueItems(r)
  {
    match FindItem(items, pid, med)
    case None =>
      var r := items + [PrescriptionItem(pid, med, qty, price, price * qty)];
      assert FindItem(r, pid, med) == Some(|items|);
      r
    case Some(k) =>
      var it := items[k];
      var r := items[k := it.(quantity := it.quantity + qty, totalPrice := it.unitPrice * (it.quantity + qty))];
      FindItemLast(r, pid, med, k);
      r
  }

  /** The search finds the last matching row. */
  lemma {:induction false} FindItemLast(items: seq<PrescriptionItem>, pid: string, med: nat, k: nat)
    requires k < |items| && items[k].prescription == pid && items[k].medicine == med
    requires forall j :: k < j < |items| ==> !(items[j].prescription == pid && items[j].medicine == med)
    ensures FindItem(items, pid, med) == Some(k)
    decreases |items|
  {
    if k < |items| - 1 {
      FindItemLast(items[..|items| - 1], pid, med, k);
    }
  }

  /** `unique_together = ['cart', 'prescription_item']`, and distinct row ids. */
  predicate UniqueCartRows(rows: seq<CartItem>)
  {
    forall i, j :: 0 <= i < j < |rows| ==>
      rows[i].id != rows[j].id && !(rows[i].cart == rows[j].cart && rows[i].item == rows[j].item)
  }

  /** The cart row for (cart, prescription item), if any. */
  function FindCartRow(rows: seq<CartItem>, cart: string, item: nat): (r: Option<nat>)
    ensures r.Some? ==> r.value < |rows| && rows[r.value].cart == cart && rows[r.value].item == item
    ensures r.Some? ==> forall j :: r.value < j < |rows| ==> !(rows[j].cart == cart && rows[j].item == item)
    ensures r.None? ==> forall j :: 0 <= j < |rows| ==> !(rows[j].cart == cart && rows[j].item == item)
  {
    if rows == [] then None
    else if rows[|rows| - 1].cart == cart && rows[|rows| - 1].item == item then Some(|rows| - 1)
    else FindCartRow(rows[..|rows| - 1], cart, item)
  }

  /** The CartItem step of add_to_cart: a new row `nextId` with `qty` priced
      at the medicine's `newPrice`, or the existing row with `qty` more and
      its subtotal recomputed at the prescription item's `itemPrice`. */
  function UpsertCartRow(rows: seq<CartItem>, cart: string, item: nat, qty: int, newPrice: int, itemPrice: int, nextId: nat): (r: seq<CartItem>)
    ensures FindCartRow(rows, cart, item).None? ==> |r| == |rows| + 1 && FindCartRow(r, cart, item) == Some(|rows|)
    ensures FindCartRow(rows, cart, item).Some? ==> |r| == |rows| && FindCartRow(r, cart, item) == FindCartRow(rows, cart, item)
    ensures FindCartRow(r, cart, item).Some?
    ensures var k := FindCartRow(r, cart, item).value;
      var before := if k < |rows| then rows[k].quantity else 0;
      r[k].quantity == before + qty
      && r[k].subtotal == (if k < |rows| then itemPrice else newPrice) * r[k].quantity
      && (k < |rows| ==> r[k].id == rows[k].id)
      && (k == |rows| ==> r[k].id == nextId)
      && (forall j :: 0 <= j < |rows| && j != k ==> r[j] == rows[j])
      && CartSum(r, cart) == CartSum(rows, cart) - (if k < |rows| then rows[k].subtotal else 0) + r[k].subtotal
    ensures forall c :: c != cart ==> CartSum(r, c) == CartSum(rows, c)
    ensures UniqueCartRows(rows) && (forall j :: 0 <= j < |rows| ==> rows[j].id != nextId) ==> UniqueCartRows(r)
  {
    match FindCartRow(rows, cart, item)
    case None =>
      var row := CartItem(nextId, cart, item, qty, newPrice * qty);
      var r := rows + [row];
      assert FindCartRow(r, cart, item) == Some(|rows|);
      assert r[..|r| - 1] == rows;
      r
    case Some(k) =>
      var row := rows[k].(quantity := rows[k].quantity + qty, subtotal := itemPrice * (rows[k].quantity + qty));
      var r := rows[k := row];
      FindCartRowLast(r, cart, item, k);
      forall c ensures CartSum(r, c) == CartSum(rows, c) - Share(rows[k], c) + Share(row, c) {
        CartSumReplace(rows, k, row, c);
      }
      r
  }

  /** The search finds the last matching row. */
  lemma {:induction false} FindCartRowLast(rows: seq<CartItem>, cart: string, item: nat, k: nat)
    requires k < |rows| && rows[k].cart == cart && rows[k].item == item
    requires forall j :: k < j < |rows| ==> !(rows[j].cart == cart && rows[j].item == item)
    ensures FindCartRow(rows, cart, item) == Some(k)
    decreases |rows|
  {
    if k < |rows| - 1 {
      FindCartRowLast(rows[..|rows| - 1], cart, item, k);
    }
  }

  /** The cart row with primary key `id`, if any. */
  function FindCartRowById(rows: seq<CartItem>, id: nat): (r: Option<nat>)
    ensures r.Some? ==> r.value < |rows| && rows[r.value].id == id
    ensures r.None? ==> forall j :: 0 <= j < |rows| ==> rows[j].id != id
  {
    if rows == [] then None
    else if rows[|rows| - 1].id == id then Some(|rows| - 1)
    else FindCartRowById(rows[..|rows| - 1], id)
  }

  /** The contribution of one row to the total of `cart`. */
  function Share(row: CartItem, cart: string): int
  {
    if row.cart == cart then row.subtotal else 0
  }

  /** `sum(item.subtotal for item in cart.cartitem_set.all())`. */
  function CartSum(rows: seq<CartItem>, cart: string): int
  {
    if rows == [] then 0 else CartSum(rows[..|rows| - 1], cart) + Share(rows[|rows| - 1], cart)
  }

  lemma {:induction false} CartSumAppend(a: seq<CartItem>, b: seq<CartItem>, cart: string)
    ensures CartSum(a + b, cart) == CartSum(a, cart) + CartSum(b, cart)
    decreases |b|
  {
    if b == [] {
      assert a + b == a;
    } else {
      assert (a + b)[..|a + b| - 1] == a + b[..|b| - 1];
      CartSumAppend(a, b[..|b| - 1], cart);
    }
  }

  /** A cart with no rows totals 0 (the sum of an empty generator). */
  lemma {:induction false} CartSumEmpty(rows: seq<CartItem>, cart: string)
    requires forall j :: 0 <= j < |rows| ==> rows[j].cart != cart
    ensures CartSum(rows, cart) == 0
  {
    if rows != [] {
      CartSumEmpty(rows[..|rows| - 1], cart);
    }
  }

  /** Replacing one row changes every cart's total by that row's change of share. */
  lemma CartSumReplace(rows: seq<CartItem>, k: nat, row: CartItem, cart: string)
    requires k < |rows|
    ensures CartSum(rows[k := row], cart) == CartSum(rows, cart) - Share(rows[k], cart) + Share(row, cart)
  {
    var r := rows[k := row];
    assert rows == rows[..k] + [rows[k]] + rows[k + 1..];
    assert r == rows[..k] + [row] + rows[k + 1..];
    CartSumAppend(rows[..k] + [rows[k]], rows[k + 1..], cart);
    CartSumAppend(rows[..k] + [row], rows[k + 1..], cart);
    assert (rows[..k] + [row])[..k] == rows[..k];
    assert (rows[..k] + [rows[k]])[..k] == rows[..k];
  }

  /** Deleting one row lowers every cart's total by that row's share. */
  lemma CartSumRemove(rows: seq<CartItem>, k: nat, cart: string)
    requires k < |rows|
    ensures CartSum(rows[..k] + rows[k + 1..], cart) == CartSum(rows, cart) - Share(rows[k], cart)
  {
    assert rows == rows[..k] + [rows[k]] + rows[k + 1..];
    CartSumAppend(rows[..k] + [rows[k]], rows[k + 1..], cart);
    CartSumAppend(rows[..k], rows[k + 1..], cart);
    assert (rows[..k] + [rows[k]])[..k] == rows[..k];
  }

  // ------------------------------------------------------------ dispensing

  /** The prescription's items (`prescription.items.all()`), in table order. */
  function ItemsOf(items: seq<PrescriptionItem>, pid: string): (r: seq<PrescriptionItem>)
    ensures forall x :: x in r <==> x in items && x.prescription == pid
  {
    if items == [] then []
    else ItemsOf(items[..|items| - 1], pid) + (if items[|items| - 1].prescription == pid then [items[|items| - 1]] else [])
  }

  /** Where the stock run of dispense_medicines stops: the medicines after it,
      and the position of the first item short of stock, if any. */
  datatype DispenseOutcome = DispenseOutcome(meds: seq<Medicine>, shortAt: Option<nat>)

  predicate ItemsInCatalog(meds: seq<Medicine>, items: seq<PrescriptionItem>)
  {
    forall k :: 0 <= k < |items| ==> items[k].medicine < |meds|
  }

  /** Each item in turn takes its quantity from its medicine's stock when the
      stock covers it; the first item it does not cover ends the run, and
      what was taken before stays taken. */
  function DispenseRun(meds: seq<Medicine>, items: seq<PrescriptionItem>): (r: DispenseOutcome)
    requires ItemsInCatalog(meds, items)
    ensures |r.meds| == |meds|
    ensures r.shortAt.Some? ==> r.shortAt.value < |items|
  {
    if items == [] then DispenseOutcome(meds, None)
    else
      var prev := DispenseRun(meds, items[..|items| - 1]);
      if prev.shortAt.Some? then prev
      else
        var it := items[|items| - 1];
        var m := prev.meds[it.medicine];
        if m.stock >= it.quantity then DispenseOutcome(prev.meds[it.medicine := m.(stock := m.stock - it.quantity)], None)
        else DispenseOutcome(prev.meds, Some(|items| - 1))
  }

  /** Total quantity the items ask of medicine `med`. */
  function QuantityFor(items: seq<PrescriptionItem>, med: nat): int
  {
    if items == [] then 0
    else QuantityFor(items[..|items| - 1], med) + (if items[|items| - 1].medicine == med then items[|items| - 1].quantity else 0)
  }

  /** Stock is only taken when it covers the item, so it never goes negative. */
  lemma {:induction false} DispenseKeepsStockNonNegative(meds: seq<Medicine>, items: seq<PrescriptionItem>)
    requires ItemsInCatalog(meds, items)
    requires forall j :: 0 <= j < |meds| ==> meds[j].stock >= 0
    ensures forall j :: 0 <= j < |meds| ==> DispenseRun(meds, items).meds[j].stock >= 0
  {
    if items != [] {
      DispenseKeepsStockNonNegative(meds, items[..|items| - 1]);
    }
  }

  /** Only stock changes: every other field of every medicine is kept. */
  lemma {:induction false} DispenseOnlyTouchesStock(meds: seq<Medicine>, items: seq<PrescriptionItem>)
    requires ItemsInCatalog(meds, items)
    ensures forall j :: 0 <= j < |meds| ==> DispenseRun(meds, items).meds[j] == meds[j].(stock := DispenseRun(meds, items).meds[j].stock)
  {
    if items != [] {
      DispenseOnlyTouchesStock(meds, items[..|items| - 1]);
    }
  }

  /** A run that completes takes from each medicine exactly what the items ask of it. */
  lemma {:induction false} DispenseSuccessStock(meds: seq<Medicine>, items: seq<PrescriptionItem>)
    requires ItemsInCatalog(meds, items)
    requires DispenseRun(meds, items).shortAt.None?
    ensures forall j :: 0 <= j < |meds| ==> DispenseRun(meds, items).meds[j].stock == meds[j].stock - QuantityFor(items, j)
  {
    if items != [] {
      DispenseSuccessStock(meds, items[..|items| - 1]);
    }
  }

  /** A run that stops at item k has applied exactly the items before k, and
      medicine of item k holds less than it asks. */
  lemma {:induction false} DispenseShortKeepsPrefix(meds: seq<Medicine>, items: seq<PrescriptionItem>)
    requires ItemsInCatalog(meds, items)
    requires DispenseRun(meds, items).shortAt.Some?
    ensures var k := DispenseRun(meds, items).shortAt.value;
      var before := DispenseRun(meds, items[..k]);
      before.shortAt.None?
      && DispenseRun(meds, items).meds == before.meds
      && before.meds[items[k].medicine].stock < items[k].quantity
  {
    var prev := DispenseRun(meds, items[..|items| - 1]);
    assert items[..|items| - 1][..|items| - 1] == items[..|items| - 1];
    if prev.shortAt.Some? {
      DispenseShortKeepsPrefix(meds, items[..|items| - 1]);
      var k := prev.shortAt.value;
      assert items[..|items| - 1][..k] == items[..k];
    }
  }

  /** Once the run has stopped, further items change nothing. */
  lemma {:induction false} DispenseStopped(meds: seq<Medicine>, items: seq<PrescriptionItem>, more: seq<PrescriptionItem>)
    requires ItemsInCatalog(meds, items + more)
    requires ItemsInCatalog(meds, items) && DispenseRun(meds, items).shortAt.Some?
    ensures DispenseRun(meds, items + more) == DispenseRun(meds, items)
    decreases |more|
  {
    if more == [] {
      assert items + more == items;
    } else {
      assert (items + more)[..|items + more| - 1] == items + more[..|more| - 1];
      DispenseStopped(meds, items, more[..|more| - 1]);
    }
  }

  /** The stock loop of dispense_medicines: each item in turn takes its
      quantity from its medicine while the stock covers it; at the first item
      it does not cover the loop stops and reports its position, keeping what
      was taken before. */
  method TakeStock(meds: seq<Medicine>, items: seq<PrescriptionItem>) returns (after: seq<Medicine>, shortAt: Option<nat>)
    requires ItemsInCatalog(meds, items)
    ensures DispenseRun(meds, items) == DispenseOutcome(after, shortAt)
  {
    after := meds;
    var i := 0;
    while i < |items|
      invariant 0 <= i <= |items|
      invariant ItemsInCatalog(meds, items[..i])
      invariant DispenseRun(meds, items[..i]) == DispenseOutcome(after, None)
    {
      assert items[..i + 1][..i] == items[..i];
      var it := items[i];
      var m := after[it.medicine];
      if m.stock < it.quantity {
        DispenseStopped(meds, items[..i + 1], items[i + 1..]);
        assert items[..i + 1] + items[i + 1..] == items;
        return after, Some(i);
      }
      after := after[it.medicine := m.(stock := m.stock - it.quantity)];
      i := i + 1;
    }
    assert items[..i] == items;
    return after, None;
  }
}
