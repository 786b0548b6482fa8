/** Value objects, entities and event records of the domain layer
    (internal/domain/entities.go). Time is an injected instant `now`, in
    seconds. */
module Domain {
  import opened Wrappers
  import opened DomainErrors

  /** A non-negative stock amount; the type carries the invariant that the
      constructor function enforces. */
  datatype StockQuantity = StockQuantity(value: nat) {

    function Add(other: StockQuantity): (r: StockQuantity)
      ensures r.value == value + other.value
    {
      StockQuantity(value + other.value)
    }

    /** Strictly above the limit: being equal to it does not exceed it. */
    predicate Exceeds(limit: StockQuantity)
      ensures Exceeds(limit) <==> value > limit.value
    {
      value > limit.value
    }
  }

  /** Builds a quantity, refusing negative amounts; zero is accepted. */
  function NewStockQuantity(q: int): (r: Result<StockQuantity, Error>)
    ensures r.Ok? <==> q >= 0
    ensures r.Ok? ==> r.value.value == q
    ensures r.Err? ==> r.error == Opaque("quantity cannot be negative")
  {
    if q < 0 then Err(Opaque("quantity cannot be negative")) else Ok(StockQuantity(q))
  }

  datatype ProductRecord = ProductRecord(
    id: string,
    name: string,
    currentStock: StockQuantity,
    lastUpdated: int,
    tenantId: string)

  /** What Product.AddStock does to a product with these fields: the new
      fields on success, or the limit error with the product left as it was. */
  function AddStockTo(p: ProductRecord, quantity: StockQuantity, maxLimit: StockQuantity, now: int)
    : (r: Result<ProductRecord, Error>)
    ensures r.Ok? <==> p.currentStock.value + quantity.value <= maxLimit.value
    ensures r.Ok? ==>
      && r.value.currentStock.value == p.currentStock.value + quantity.value
      && r.value.currentStock.value <= maxLimit.value
      && r.value.lastUpdated == now
      && r.value.id == p.id && r.value.name == p.name && r.value.tenantId == p.tenantId
    ensures r.Err? ==>
      r.error == StockExceedsLimit(p.currentStock.value, quantity.value,
                                   p.currentStock.value + quantity.value, maxLimit.value)
  {
    var newStock := p.currentStock.Add(quantity);
    if newStock.Exceeds(maxLimit) then
      Err(StockExceedsLimit(p.currentStock.value, quantity.value, newStock.value, maxLimit.value))
    else
      Ok(p.(currentStock := newStock, lastUpdated := now))
  }

  /** The limit error as AddStock raises it always reports a would-be stock
      that is the sum of the other two and lies above the maximum. */
  lemma LimitErrorIsConsistent(p: ProductRecord, quantity: StockQuantity, maxLimit: StockQuantity, now: int)
    requires AddStockTo(p, quantity, maxLimit, now).Err?
    ensures var e := AddStockTo(p, quantity, maxLimit, now).error;
      && e.StockExceedsLimit?
      && e.wouldBe == e.current + e.adding
      && e.wouldBe > e.maxAllowed
      && e.current >= 0 && e.adding >= 0 && e.maxAllowed >= 0
  {
  }

  function IsRecentlyUpdated(p: ProductRecord, threshold: int, now: int): (b: bool)
    ensures b <==> now - p.lastUpdated < threshold
  {
    now - p.lastUpdated < threshold
  }

  /** Strictly below the threshold. */
  function IsLowStock(p: ProductRecord, threshold: int): (b: bool)
    ensures b <==> p.currentStock.value < threshold
  {
    p.currentStock.value < threshold
  }

  /** Current stock as a percentage of the limit; 0 when the limit is 0. */
  function UtilizationPercentage(p: ProductRecord, maxLimit: StockQuantity): (u: real)
    ensures maxLimit.value == 0 ==> u == 0.0
    ensures maxLimit.value > 0 ==> u * (maxLimit.value as real) == 100.0 * (p.currentStock.value as real)
  {
    Utilization(p.currentStock.value, maxLimit.value)
  }

  function Utilization(current: nat, max: nat): (u: real)
    ensures max == 0 ==> u == 0.0
    ensures max > 0 ==> u * (max as real) == 100.0 * (current as real)
    ensures u >= 0.0
  {
    if max == 0 then 0.0 else (current as real) / (max as real) * 100.0
  }

  /** The `> 80` test on the percentage is, exactly, the integer test
      `100 * current > 80 * max` (and never holds for a zero limit). */
  lemma UtilizationAboveIff(current: nat, max: nat, percent: nat)
    ensures Utilization(current, max) > percent as real <==> max > 0 && 100 * current > percent * max
  {
    var u := Utilization(current, max);
    if max > 0 {
      var m := max as real;
      var p := percent as real;
      assert u * m == (100 * current) as real;
      assert p * m == (percent * max) as real;
      if u > p {
        MulStrict(u, p, m);
      } else {
        MulMono(u, p, m);
      }
    }
  }

  lemma MulStrict(a: real, b: real, m: real)
    requires m > 0.0 && a > b
    ensures a * m > b * m
  {
  }

  lemma MulMono(a: real, b: real, m: real)
    requires m > 0.0 && a <= b
    ensures a * m <= b * m
  {
  }

  /** Within the limit, utilization is at most 100. */
  lemma UtilizationAtMostFull(current: nat, max: nat)
    requires current <= max
    ensures Utilization(current, max) <= 100.0
  {
    if max > 0 {
      var u := Utilization(current, max);
      assert u * (max as real) <= 100.0 * (max as real);
    }
  }

  lemma UtilizationExamples()
    ensures Utilization(25, 100) == 25.0
    ensures Utilization(85, 100) == 85.0
    ensures Utilization(7, 0) == 0.0
  {
  }

  /** An entity whose stock is changed in place by AddStock. */
  class Product {
    var id: string
    var name: string
    var currentStock: StockQuantity
    var lastUpdated: int
    var tenantId: string

    function Record(): ProductRecord
      reads this
    {
      ProductRecord(id, name, currentStock, lastUpdated, tenantId)
    }

    constructor (r: ProductRecord)
      ensures Record() == r
    {
      id, name, currentStock, lastUpdated, tenantId := r.id, r.name, r.currentStock, r.lastUpdated, r.tenantId;
    }

    /** Overwrites every field with those of `r` (Go's `*p = *q`). */
    method Assign(r: ProductRecord)
      modifies this
      ensures Record() == r
    {
      id, name, currentStock, lastUpdated, tenantId := r.id, r.name, r.currentStock, r.lastUpdated, r.tenantId;
    }

    /** The only place capacity is enforced. On failure no field changes. */
    method AddStock(quantity: StockQuantity, maxLimit: StockQuantity, now: int) returns (err: Option<Error>)
      modifies this
      ensures var r := AddStockTo(old(Record()), quantity, maxLimit, now);
        && (r.Ok? ==> err == None && Record() == r.value)
        && (r.Err? ==> err == Some(r.error) && Record() == old(Record()))
    {
      var newStock := currentStock.Add(quantity);
      if newStock.Exceeds(maxLimit) {
        return Some(StockExceedsLimit(currentStock.value, quantity.value, newStock.value, maxLimit.value));
      }
      currentStock := newStock;
      lastUpdated := now;
      return None;
    }
  }

  datatype Tenant = Tenant(id: string, name: string, maxStock: StockQuantity, isActive: bool)

  /** Only an active tenant may receive stock; the check has no side effect. */
  function CanReceiveStock(t: Tenant): (r: Option<Error>)
    ensures r.Some? <==> !t.isActive
    ensures r.Some? ==> r.value == TenantInactive
  {
    if !t.isActive then Some(TenantInactive) else None
  }

  /** The audit fact recorded for one successful addition. */
  datatype StockAddedEvent = StockAddedEvent(
    productId: string,
    tenantId: string,
    quantity: StockQuantity,
    previous: StockQuantity,
    current: StockQuantity,
    addedBy: string,
    timestamp: int,
    notes: string)

  /** The notification raised when utilization passes the alert threshold. */
  datatype StockLimitAlertEvent = StockLimitAlertEvent(
    productId: string,
    productName: string,
    current: StockQuantity,
    maxLimit: StockQuantity,
    utilization: real,
    tenantId: string,
    timestamp: int)
}
