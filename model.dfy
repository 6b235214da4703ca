/**
 * Stock allocation: order lines (value objects) are allocated to batches of
 * stock (entities). A batch accepts a line only when the SKUs match and
 * enough quantity is left; otherwise allocation silently does nothing.
 */
module Model {

  datatype Option<T> = None | Some(value: T)

  /** A delivery date, as a day number; only its ordering matters. */
  type Date = int

  /**
   * An order line: an immutable (order id, SKU, quantity) triple.
   * Equality is structural, so two lines with the same fields are the same
   * value and the same member of a set. The quantity is not validated.
   */
  datatype Orderline = Orderline(orderid: string, sku: string, qty: int)

  /** The total quantity of a finite set of order lines. */
  ghost function SumQty(lines: set<Orderline>): int
    decreases lines
  {
    if lines == {} then 0
    else
      var l :| l in lines;
      l.qty + SumQty(lines - {l})
  }

  /** Taking any one line out of a set lowers its total by that line's quantity. */
  lemma {:induction false} SumQtyRemove(lines: set<Orderline>, x: Orderline)
    requires x in lines
    ensures SumQty(lines) == x.qty + SumQty(lines - {x})
    decreases lines
  {
    var y :| y in lines && SumQty(lines) == y.qty + SumQty(lines - {y});
    if y != x {
      SumQtyRemove(lines - {y}, x);
      SumQtyRemove(lines - {x}, y);
      assert lines - {y} - {x} == lines - {x} - {y};
    }
  }

  /** Adding a line not yet in a set raises its total by that line's quantity. */
  lemma SumQtyAdd(lines: set<Orderline>, x: Orderline)
    requires x !in lines
    ensures SumQty(lines + {x}) == SumQty(lines) + x.qty
  {
    SumQtyRemove(lines + {x}, x);
    assert (lines + {x}) - {x} == lines;
  }

  // ---------------------------------------------------------------------
  // The allocation rule on values: what a batch with SKU `sku` and purchased
  // quantity `purchased` does to its allocation set `from`.
  // ---------------------------------------------------------------------

  /** The quantity still available once the lines in `from` are allocated. */
  ghost function Available(purchased: int, from: set<Orderline>): int
  {
    purchased - SumQty(from)
  }

  /** The acceptance test of the allocation rule. */
  ghost predicate Admits(sku: string, purchased: int, from: set<Orderline>, line: Orderline)
  {
    line.sku == sku && Available(purchased, from) >= line.qty
  }

  /** The allocation set after allocating `line`. */
  ghost function AfterAllocate(sku: string, purchased: int, from: set<Orderline>, line: Orderline): set<Orderline>
  {
    if Admits(sku, purchased, from, line) then from + {line} else from
  }

  /** The allocation set after deallocating `line`. */
  ghost function AfterDeallocate(from: set<Orderline>, line: Orderline): set<Orderline>
  {
    if line in from then from - {line} else from
  }

  /** Every allocated line is for the batch's SKU. */
  ghost predicate SkuGuarded(sku: string, lines: set<Orderline>)
  {
    forall l :: l in lines ==> l.sku == sku
  }

  /** A rejected line leaves the allocation set as it was; an accepted one is in it afterwards. */
  lemma AllocateRejectedIsNoOp(sku: string, purchased: int, from: set<Orderline>, line: Orderline)
    ensures !Admits(sku, purchased, from, line) ==> AfterAllocate(sku, purchased, from, line) == from
    ensures Admits(sku, purchased, from, line) ==> AfterAllocate(sku, purchased, from, line) == from + {line}
  {
  }

  /** Allocating a value-equal line a second time changes nothing. */
  lemma AllocateIdempotent(sku: string, purchased: int, from: set<Orderline>, line: Orderline)
    ensures var once := AfterAllocate(sku, purchased, from, line);
            AfterAllocate(sku, purchased, once, line) == once
  {
  }

  /**
   * Allocating a line not yet allocated raises the allocated quantity by
   * exactly its quantity when accepted, and the available quantity that
   * results is never negative.
   */
  lemma AllocateAccounting(sku: string, purchased: int, from: set<Orderline>, line: Orderline)
    requires line !in from
    ensures var after := AfterAllocate(sku, purchased, from, line);
            SumQty(after) == if Admits(sku, purchased, from, line) then SumQty(from) + line.qty else SumQty(from)
    ensures Admits(sku, purchased, from, line) ==> Available(purchased, AfterAllocate(sku, purchased, from, line)) >= 0
  {
    if Admits(sku, purchased, from, line) {
      SumQtyAdd(from, line);
    }
  }

  /** Allocation never makes a batch that was not oversold oversold. */
  lemma AllocateKeepsAvailableNonNegative(sku: string, purchased: int, from: set<Orderline>, line: Orderline)
    requires Available(purchased, from) >= 0
    ensures Available(purchased, AfterAllocate(sku, purchased, from, line)) >= 0
  {
    if line !in from {
      AllocateAccounting(sku, purchased, from, line);
    } else {
      assert from + {line} == from;
    }
  }

  /** Allocation keeps every allocated line on the batch's SKU. */
  lemma AllocateKeepsSkuGuard(sku: string, purchased: int, from: set<Orderline>, line: Orderline)
    requires SkuGuarded(sku, from)
    ensures SkuGuarded(sku, AfterAllocate(sku, purchased, from, line))
  {
  }

  /**
   * Deallocating a present line lowers the allocated quantity by exactly its
   * quantity; deallocating an absent one changes nothing.
   */
  lemma DeallocateAccounting(from: set<Orderline>, line: Orderline)
    ensures line !in from ==> AfterDeallocate(from, line) == from
    ensures line in from ==> line !in AfterDeallocate(from, line)
                             && SumQty(AfterDeallocate(from, line)) == SumQty(from) - line.qty
  {
    if line in from {
      SumQtyRemove(from, line);
    }
  }

  /**
   * Deallocating a present line of the batch's SKU, then allocating it again,
   * restores the allocation set (and so the available quantity), provided the
   * batch was not oversold.
   */
  lemma DeallocateThenAllocateRestores(sku: string, purchased: int, from: set<Orderline>, line: Orderline)
    requires line in from && line.sku == sku
    requires Available(purchased, from) >= 0
    ensures Admits(sku, purchased, AfterDeallocate(from, line), line)
    ensures AfterAllocate(sku, purchased, AfterDeallocate(from, line), line) == from
  {
    SumQtyRemove(from, line);
    assert from - {line} + {line} == from;
  }

  /** Allocating a fresh line, then deallocating it, restores the allocation set. */
  lemma AllocateThenDeallocateRestores(sku: string, purchased: int, from: set<Orderline>, line: Orderline)
    requires line !in from
    ensures AfterDeallocate(AfterAllocate(sku, purchased, from, line), line) == from
  {
  }

  /** Deallocation keeps every allocated line on the batch's SKU. */
  lemma DeallocateKeepsSkuGuard(sku: string, from: set<Orderline>, line: Orderline)
    requires SkuGuarded(sku, from)
    ensures SkuGuarded(sku, AfterDeallocate(from, line))
  {
  }

  // ---------------------------------------------------------------------
  // The batch entity.
  // ---------------------------------------------------------------------

  /**
   * A batch of stock: a fixed reference, SKU, purchased quantity and optional
   * ETA (none means in stock now), and a mutable set of allocated lines.
   */
  class Batch {
    const reference: string
    const sku: string
    const purchasedQuantity: int
    const eta: Option<Date>
    var allocations: set<Orderline>

    /** A new batch has nothing allocated. */
    constructor (reference: string, sku: string, quantity: int, eta: Option<Date>)
      ensures this.reference == reference && this.sku == sku
      ensures this.purchasedQuantity == quantity && this.eta == eta
      ensures allocations == {}
      ensures Valid() && Available(purchasedQuantity, allocations) == quantity
    {
      this.reference := reference;
      this.sku := sku;
      this.purchasedQuantity := quantity;
      this.eta := eta;
      this.allocations := {};
    }

    /** The batch invariant: only lines of the batch's SKU are allocated. */
    ghost predicate Valid()
      reads this
    {
      SkuGuarded(sku, allocations)
    }

    /**
     * Priority order: a batch with no ETA is never greater, a dated batch is
     * greater than an undated one, and two dated batches compare by ETA.
     */
    function GreaterThan(other: Batch): (r: bool)
      ensures r ==> eta.Some?
      ensures eta.Some? && other.eta.None? ==> r
    {
      if eta.None? then false
      else if other.eta.None? then true
      else eta.value > other.eta.value
    }

    /** The sum of the quantities of the allocated lines. */
    method AllocatedQuantity() returns (q: int)
      ensures q == SumQty(allocations)
    {
      var rest := allocations;
      q := 0;
      while rest != {}
        invariant rest <= allocations
        invariant q + SumQty(rest) == SumQty(allocations)
        decreases rest
      {
        var l :| l in rest;
        SumQtyRemove(rest, l);
        q := q + l.qty;
        rest := rest - {l};
      }
    }

    /** The purchased quantity less the allocated quantity. */
    method AvailableQuantity() returns (q: int)
      ensures q == Available(purchasedQuantity, allocations)
      ensures q == purchasedQuantity - SumQty(allocations)
    {
      var used := AllocatedQuantity();
      q := purchasedQuantity - used;
    }

    /** Whether the line has the batch's SKU and fits in what is still available. */
    method CanAllocate(line: Orderline) returns (ok: bool)
      ensures ok <==> line.sku == sku && purchasedQuantity - SumQty(allocations) >= line.qty
      ensures ok == Admits(sku, purchasedQuantity, allocations, line)
    {
      var available := AvailableQuantity();
      ok := sku == line.sku && available >= line.qty;
    }

    /** Adds the line when it is admitted; otherwise does nothing. */
    method Allocate(line: Orderline)
      requires Valid()
      modifies this`allocations
      ensures Valid()
      ensures allocations == AfterAllocate(sku, purchasedQuantity, old(allocations), line)
      ensures !Admits(sku, purchasedQuantity, old(allocations), line) ==> allocations == old(allocations)
      ensures old(Available(purchasedQuantity, allocations)) >= 0 ==> Available(purchasedQuantity, allocations) >= 0
      ensures line !in old(allocations) && Admits(sku, purchasedQuantity, old(allocations), line) ==>
                SumQty(allocations) == old(SumQty(allocations)) + line.qty
    {
      var ok := CanAllocate(line);
      if ok {
        if line !in allocations {
          AllocateAccounting(sku, purchasedQuantity, allocations, line);
        }
        if Available(purchasedQuantity, allocations) >= 0 {
          AllocateKeepsAvailableNonNegative(sku, purchasedQuantity, allocations, line);
        }
        allocations := allocations + {line};
      }
    }

    /** Removes the line when it is allocated; otherwise does nothing. */
    method Deallocate(line: Orderline)
      requires Valid()
      modifies this`allocations
      ensures Valid()
      ensures allocations == AfterDeallocate(old(allocations), line)
      ensures line !in old(allocations) ==> allocations == old(allocations)
      ensures line in old(allocations) ==> SumQty(allocations) == old(SumQty(allocations)) - line.qty
    {
      if line in allocations {
        DeallocateAccounting(allocations, line);
        allocations := allocations - {line};
      }
    }
  }

  // ---------------------------------------------------------------------
  // Properties of the priority order.
  // ---------------------------------------------------------------------

  /** Two undated batches are mutually not greater. */
  lemma UndatedMutuallyNotGreater(a: Batch, b: Batch)
    requires a.eta.None? && b.eta.None?
    ensures !a.GreaterThan(b) && !b.GreaterThan(a)
  {
  }

  /** Two dated batches compare by ETA. */
  lemma DatedCompareByEta(a: Batch, b: Batch)
    requires a.eta.Some? && b.eta.Some?
    ensures a.GreaterThan(b) <==> a.eta.value > b.eta.value
  {
  }

  /** Neither batch is greater than the other exactly when both are undated or both have the same ETA. */
  lemma IncomparableIffSameEta(a: Batch, b: Batch)
    ensures (!a.GreaterThan(b) && !b.GreaterThan(a)) <==> a.eta == b.eta
  {
  }

  /**
   * The order is a strict weak order: irreflexive, transitive, and with
   * transitive incomparability, which is what sorting by it relies on.
   */
  lemma GreaterThanIsStrictWeakOrder(a: Batch, b: Batch, c: Batch)
    ensures !a.GreaterThan(a)
    ensures a.GreaterThan(b) ==> !b.GreaterThan(a)
    ensures a.GreaterThan(b) && b.GreaterThan(c) ==> a.GreaterThan(c)
    ensures !a.GreaterThan(b) && !b.GreaterThan(a) && !b.GreaterThan(c) && !c.GreaterThan(b) ==>
              !a.GreaterThan(c) && !c.GreaterThan(a)
  {
  }

  // ---------------------------------------------------------------------
  // Worked scenarios for the allocation rule.
  // ---------------------------------------------------------------------

  /** Twenty red chairs in stock: two are allocated, eighteen remain. */
  lemma ScenarioAllocateTwoOfTwenty()
    ensures var line := Orderline("order-1", "RED-CHAIR", 2);
            Admits("RED-CHAIR", 20, {}, line)
            && AfterAllocate("RED-CHAIR", 20, {}, line) == {line}
            && SumQty({line}) == 2
            && Available(20, {line}) == 18
  {
  }

  /** A blue-chair line is rejected by a red-chair batch; two chairs cannot cover twenty. */
  lemma ScenarioRejections()
    ensures !Admits("RED-CHAIR", 20, {}, Orderline("order-2", "BLUE-CHAIR", 2))
    ensures AfterAllocate("RED-CHAIR", 20, {}, Orderline("order-2", "BLUE-CHAIR", 2)) == {}
    ensures !Admits("RED-CHAIR", 2, {}, Orderline("order-3", "RED-CHAIR", 20))
  {
  }
}
