/** The stock-addition workflow
    (internal/application/usecases/add_stock_usecase.go): a pure
    specification `Run` over an abstract view of every collaborator, and the
    imperative `AddStockUseCase.Execute`, proved to follow it step by step. */
module UseCases {
  import opened Wrappers
  import opened DomainErrors
  import opened Domain
  import opened Mocks

  datatype AddStockRequest = AddStockRequest(
    productId: string,
    quantity: int,
    tenantId: string,
    notes: string,
    addedBy: string)

  datatype AddStockResponse = AddStockResponse(
    productId: string,
    productName: string,
    previousStock: int,
    newStock: int,
    added: int,
    maxAllowed: int,
    utilization: real)

  /** Policy constants of the workflow: the low-stock threshold, the
      utilization percentage above which a limit alert goes out, and the
      recent-update window (five minutes, in seconds). */
  const LowStockThreshold: int := 10
  const AlertThreshold: real := 80.0
  const RecentUpdateWindow: int := 300

  /** Structural checks made before any collaborator is touched, in this
      order: product id, tenant id, quantity. */
  function ValidateRequest(req: AddStockRequest): (r: Option<Error>)
    ensures r.None? <==> req.productId != "" && req.tenantId != "" && req.quantity > 0
    ensures req.productId == "" ==> r == Some(InvalidProductID)
    ensures req.productId != "" && req.tenantId == "" ==> r == Some(TenantNotFound)
    ensures req.productId != "" && req.tenantId != "" && req.quantity <= 0 ==> r == Some(InvalidQuantity)
  {
    if req.productId == "" then Some(InvalidProductID)
    else if req.tenantId == "" then Some(TenantNotFound)
    else if req.quantity <= 0 then Some(InvalidQuantity)
    else None
  }

  // ---------------------------------------------------------------------
  // Abstract view of the collaborators

  datatype ProductStore = ProductStore(
    product: Option<ProductRecord>, findErr: Option<Error>, saveErr: Option<Error>, calls: seq<ProductCall>)

  datatype TenantStore = TenantStore(tenant: Option<Tenant>, findErr: Option<Error>, calls: seq<string>)

  datatype HistoryStore = HistoryStore(
    events: seq<StockAddedEvent>, createErr: Option<Error>, calls: seq<StockAddedEvent>)

  datatype TxState = TxState(
    status: TxStatus, beginErr: Option<Error>, commitErr: Option<Error>, rollbackErr: Option<Error>,
    calls: seq<TxCall>)

  /** A low-stock notification: the product as it stood, and the threshold. */
  datatype LowStockAlert = LowStockAlert(product: ProductRecord, threshold: int)

  datatype World = World(
    tx: TxState,
    tenants: TenantStore,
    products: ProductStore,
    history: HistoryStore,
    stockAlerts: seq<StockLimitAlertEvent>,
    lowStockAlerts: seq<LowStockAlert>,
    published: seq<StockAddedEvent>)

  /** The steps inside the scope never dereference nil: when the tenant
      lookup reports no error it hands out a tenant (used at once by the
      eligibility check), and when an active tenant is followed by a clean
      product lookup and a valid quantity, that lookup hands out a product
      (used by the recent-update check). A nil value at either point makes
      the Go code panic. */
  predicate InScopeSafe(req: AddStockRequest, w: World) {
    w.tenants.findErr.None? ==>
      && w.tenants.tenant.Some?
      && (w.tenants.tenant.value.isActive && w.products.findErr.None? && req.quantity >= 0 ==>
            w.products.product.Some?)
  }

  /** The same condition for the whole call: it only matters once the
      request is valid and Begin has succeeded. */
  predicate NoNilDereference(req: AddStockRequest, w: World) {
    ValidateRequest(req).None? && w.tx.beginErr.None? ==> InScopeSafe(req, w)
  }

  /** What the test configures and the call never changes: the tenant, and
      every error each double is set up to return. */
  function Configured(w: World): (Option<Tenant>, seq<Option<Error>>) {
    (w.tenants.tenant,
     [w.tx.beginErr, w.tx.commitErr, w.tx.rollbackErr, w.tenants.findErr,
      w.products.findErr, w.products.saveErr, w.history.createErr])
  }

  // ---------------------------------------------------------------------
  // Specification of Execute, one function per stretch of the step sequence

  /** The whole call: validation, Begin, the steps inside the scope, then the
      deferred Rollback, whose own error is dropped. */
  function Run(hasPublisher: bool, req: AddStockRequest, w: World, now: int)
    : (r: (Result<AddStockResponse, Error>, World))
    requires NoNilDereference(req, w)
    ensures Configured(r.1) == Configured(w)
    ensures r.0.Ok? ==> r.1.tx.status == Committed && |r.1.history.events| == |w.history.events| + 1
  {
    match ValidateRequest(req)
    case Some(e) => (Err(e), w)
    case None =>
      var w1 := w.(tx := w.tx.(calls := w.tx.calls + [BeginCall]));
      if w.tx.beginErr.Some? then (Err(w.tx.beginErr.value), w1)
      else
        var out := InScope(hasPublisher, req, w1.(tx := w1.tx.(status := Open)), now);
        (out.0, RollbackStep(out.1))
  }

  function RollbackStep(w: World): World {
    w.(tx := w.tx.(
      calls := w.tx.calls + [RollbackCall],
      status := if w.tx.status.HasSession() && w.tx.rollbackErr.None? then RolledBack else w.tx.status))
  }

  /** Steps 3 to 6: tenant lookup, eligibility, product lookup and the
      quantity value object. */
  function InScope(hasPublisher: bool, req: AddStockRequest, w: World, now: int)
    : (Result<AddStockResponse, Error>, World)
    requires InScopeSafe(req, w)
  {
    var w1 := w.(tenants := w.tenants.(calls := w.tenants.calls + [req.tenantId]));
    if w.tenants.findErr.Some? then (Err(w.tenants.findErr.value), w1)
    else
      var tenant := w.tenants.tenant.value;
      if CanReceiveStock(tenant).Some? then (Err(CanReceiveStock(tenant).value), w1)
      else
        var w2 := w1.(products := w1.products.(calls := w1.products.calls + [FindCall(req.productId)]));
        if w.products.findErr.Some? then (Err(w.products.findErr.value), w2)
        else
          match NewStockQuantity(req.quantity)
          case Err(e) => (Err(e), w2)
          case Ok(quantity) => Apply(hasPublisher, req, tenant, w.products.product.value, quantity, w2, now)
  }

  /** Steps 8 to 10: the capacity-checked update of the stored product (the
      loaded product is the stored object, so the store sees the change at
      once), Save, and the audit record. */
  function Apply(hasPublisher: bool, req: AddStockRequest, tenant: Tenant, p: ProductRecord,
                 quantity: StockQuantity, w: World, now: int)
    : (Result<AddStockResponse, Error>, World)
  {
    match AddStockTo(p, quantity, tenant.maxStock, now)
    case Err(e) => (Err(e), w)
    case Ok(updated) =>
      var w1 := w.(products := w.products.(product := Some(updated), calls := w.products.calls + [SaveCall(updated)]));
      if w.products.saveErr.Some? then (Err(w.products.saveErr.value), w1)
      else
        var event := AuditEvent(req, quantity, p, updated, now);
        var w2 := w1.(history := w1.history.(calls := w1.history.calls + [event]));
        if w.history.createErr.Some? then (Err(w.history.createErr.value), w2)
        else
          Finish(hasPublisher, req, tenant, p, updated, quantity, event,
                 w2.(history := w2.history.(events := w2.history.events + [event])), now)
  }

  function AuditEvent(req: AddStockRequest, quantity: StockQuantity, before: ProductRecord,
                      after: ProductRecord, now: int): StockAddedEvent
  {
    StockAddedEvent(after.id, req.tenantId, quantity, before.currentStock, after.currentStock,
                    req.addedBy, now, req.notes)
  }

  function LimitAlert(req: AddStockRequest, tenant: Tenant, after: ProductRecord, now: int): StockLimitAlertEvent {
    StockLimitAlertEvent(after.id, after.name, after.currentStock, tenant.maxStock,
                         UtilizationPercentage(after, tenant.maxStock), req.tenantId, now)
  }

  /** Steps 11 to 15: the two alerts and the optional publication, decided
      before Commit, then Commit and the summary. */
  function Finish(hasPublisher: bool, req: AddStockRequest, tenant: Tenant, before: ProductRecord,
                  after: ProductRecord, quantity: StockQuantity, event: StockAddedEvent, w: World, now: int)
    : (Result<AddStockResponse, Error>, World)
  {
    var utilization := UtilizationPercentage(after, tenant.maxStock);
    var w1 := if utilization > AlertThreshold
              then w.(stockAlerts := w.stockAlerts + [LimitAlert(req, tenant, after, now)]) else w;
    var w2 := if IsLowStock(after, LowStockThreshold)
              then w1.(lowStockAlerts := w1.lowStockAlerts + [LowStockAlert(after, LowStockThreshold)]) else w1;
    var w3 := if hasPublisher then w2.(published := w2.published + [event]) else w2;
    var open := w.tx.status.HasSession();
    var w4 := w3.(tx := w3.tx.(
      calls := w3.tx.calls + [CommitCall],
      status := if open && w.tx.commitErr.None? then Committed else w.tx.status));
    if open && w.tx.commitErr.Some? then (Err(w.tx.commitErr.value), w4)
    else
      (Ok(AddStockResponse(after.id, after.name, before.currentStock.value, after.currentStock.value,
                           quantity.value, tenant.maxStock.value, utilization)), w4)
  }

  // ---------------------------------------------------------------------
  // The orchestrator

  class AddStockUseCase {
    const uow: UnitOfWork
    /** Whether an event publisher is configured (it may be nil). */
    const hasPublisher: bool
    const recentUpdateThreshold: int
    /** What the notification service and the publisher were handed. */
    ghost var stockAlerts: seq<StockLimitAlertEvent>
    ghost var lowStockAlerts: seq<LowStockAlert>
    ghost var published: seq<StockAddedEvent>

    constructor (uow: UnitOfWork, hasPublisher: bool)
      ensures this.uow == uow && this.hasPublisher == hasPublisher
      ensures recentUpdateThreshold == RecentUpdateWindow
      ensures stockAlerts == [] && lowStockAlerts == [] && published == []
    {
      this.uow, this.hasPublisher, recentUpdateThreshold := uow, hasPublisher, RecentUpdateWindow;
      stockAlerts, lowStockAlerts, published := [], [], [];
    }

    ghost function State(): World
      reads this, uow, uow.tenants, uow.products, uow.history, uow.products.product
    {
      var pr := uow.products;
      World(
        TxState(uow.status, uow.beginErr, uow.commitErr, uow.rollbackErr, uow.calls),
        TenantStore(uow.tenants.tenant, uow.tenants.findErr, uow.tenants.calls),
        ProductStore(if pr.product == null then None else Some(pr.product.Record()),
                     pr.findErr, pr.saveErr, pr.calls),
        HistoryStore(uow.history.events, uow.history.createErr, uow.history.calls),
        stockAlerts, lowStockAlerts, published)
    }

    method Execute(req: AddStockRequest, now: int) returns (r: Result<AddStockResponse, Error>)
      requires NoNilDereference(req, State())
      modifies this, uow, uow.tenants, uow.products, uow.history, uow.products.product
      ensures (r, State()) == Run(hasPublisher, req, old(State()), now)
      ensures uow.products.product == old(uow.products.product)
    {
      var invalid := ValidateRequest(req);
      if invalid.Some? {
        return Err(invalid.value);
      }
      var beginErr := uow.Begin();
      if beginErr.Some? {
        return Err(beginErr.value);
      }
      r := ExecuteInScope(req, now);
      // The deferred Rollback: a no-op once Commit has ended the session.
      var _ := uow.Rollback();
    }

    method ExecuteInScope(req: AddStockRequest, now: int) returns (r: Result<AddStockResponse, Error>)
      requires InScopeSafe(req, State())
      modifies this, uow, uow.tenants, uow.products, uow.history, uow.products.product
      ensures (r, State()) == InScope(hasPublisher, req, old(State()), now)
      ensures uow.products.product == old(uow.products.product)
    {
      var found := uow.tenants.FindByID(req.tenantId);
      if found.Err? {
        return Err(found.error);
      }
      var tenant := found.value.value;
      var ineligible := CanReceiveStock(tenant);
      if ineligible.Some? {
        return Err(ineligible.value);
      }
      var product, findErr := uow.products.FindByID(req.productId);
      if findErr.Some? {
        return Err(findErr.value);
      }
      var q := NewStockQuantity(req.quantity);
      if q.Err? {
        return Err(q.error);
      }
      var quantity := q.value;
      // Whether the product was updated recently is computed and ignored.
      var _ := IsRecentlyUpdated(product.Record(), recentUpdateThreshold, now);
      r := ApplyStep(req, tenant, product, quantity, now);
    }

    method ApplyStep(req: AddStockRequest, tenant: Tenant, product: Product, quantity: StockQuantity, now: int)
      returns (r: Result<AddStockResponse, Error>)
      requires product == uow.products.product
      modifies this, uow, uow.history, uow.products, product
      ensures (r, State()) == Apply(hasPublisher, req, tenant, old(product.Record()), quantity, old(State()), now)
      ensures uow.products.product == old(uow.products.product)
    {
      var before := product.Record();
      var limitErr := product.AddStock(quantity, tenant.maxStock, now);
      if limitErr.Some? {
        return Err(limitErr.value);
      }
      var saveErr := uow.products.Save(product);
      if saveErr.Some? {
        return Err(saveErr.value);
      }
      var after := product.Record();
      var event := StockAddedEvent(product.id, req.tenantId, quantity, before.currentStock,
                                   product.currentStock, req.addedBy, now, req.notes);
      assert event == AuditEvent(req, quantity, before, after, now);
      var createErr := uow.history.Create(event);
      if createErr.Some? {
        return Err(createErr.value);
      }
      r := FinishStep(req, tenant, before, product, quantity, event, now);
    }

    method FinishStep(req: AddStockRequest, tenant: Tenant, before: ProductRecord, product: Product,
                      quantity: StockQuantity, event: StockAddedEvent, now: int)
      returns (r: Result<AddStockResponse, Error>)
      requires product == uow.products.product
      modifies this, uow
      ensures (r, State()) == Finish(hasPublisher, req, tenant, before, product.Record(), quantity, event,
                                     old(State()), now)
    {
      var after := product.Record();
      var utilization := UtilizationPercentage(after, tenant.maxStock);
      if utilization > AlertThreshold {
        // SendStockAlert, dispatched in the background.
        stockAlerts := stockAlerts + [StockLimitAlertEvent(product.id, product.name, product.currentStock,
                                                           tenant.maxStock, utilization, req.tenantId, now)];
      }
      if IsLowStock(after, LowStockThreshold) {
        // SendLowStockAlert, dispatched in the background.
        lowStockAlerts := lowStockAlerts + [LowStockAlert(after, LowStockThreshold)];
      }
      if hasPublisher {
        published := published + [event];
      }
      var commitErr := uow.Commit();
      if commitErr.Some? {
        return Err(commitErr.value);
      }
      return Ok(AddStockResponse(product.id, product.name, before.currentStock.value,
                                 product.currentStock.value, quantity.value, tenant.maxStock.value,
                                 utilization));
    }
  }
}
