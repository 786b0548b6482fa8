/** What the stock-addition workflow guarantees, stated over its
    specification `UseCases.Run` (which `AddStockUseCase.Execute` is proved
    to follow). */
module AddStockProperties {
  import opened Wrappers
  import opened DomainErrors
  import opened Domain
  import opened Mocks
  import opened UseCases

  /** Everything up to Commit succeeds: the request is well formed, the
      scope opens, the tenant is found and active, the product is found, the
      addition fits, and Save and Create succeed. */
  predicate ReachesCommit(req: AddStockRequest, w: World) {
    && ValidateRequest(req).None?
    && w.tx.beginErr.None?
    && w.tenants.findErr.None? && w.tenants.tenant.Some? && w.tenants.tenant.value.isActive
    && w.products.findErr.None? && w.products.product.Some?
    && w.products.product.value.currentStock.value + req.quantity <= w.tenants.tenant.value.maxStock.value
    && w.products.saveErr.None?
    && w.history.createErr.None?
  }

  /** A malformed request is answered before Begin: the error is the first
      failing check and no collaborator is touched. */
  lemma ValidationComesFirst(hasPublisher: bool, req: AddStockRequest, w: World, now: int)
    requires ValidateRequest(req).Some?
    ensures Run(hasPublisher, req, w, now) == (Err(ValidateRequest(req).value), w)
    ensures req.productId != "" && req.tenantId != "" ==> Run(hasPublisher, req, w, now).0 == Err(InvalidQuantity)
  {
  }

  /** A failing Begin is returned as it is, and no Rollback follows it. */
  lemma BeginFailureSkipsRollback(hasPublisher: bool, req: AddStockRequest, w: World, now: int)
    requires ValidateRequest(req).None? && w.tx.beginErr.Some?
    ensures Run(hasPublisher, req, w, now) == (Err(w.tx.beginErr.value), w.(tx := w.tx.(calls := w.tx.calls + [BeginCall])))
  {
  }

  /** Once Begin succeeds, the call ends with exactly one Rollback, which
      follows Commit when Commit was reached; it undoes the scope on every
      failure and is a no-op after a successful Commit. */
  lemma RollbackEndsEveryScope(hasPublisher: bool, req: AddStockRequest, w: World, now: int)
    requires NoNilDereference(req, w)
    requires ValidateRequest(req).None? && w.tx.beginErr.None?
    ensures var (r, w') := Run(hasPublisher, req, w, now);
      && w'.tx.calls == w.tx.calls + [BeginCall] + (if ReachesCommit(req, w) then [CommitCall] else []) + [RollbackCall]
      && (r.Ok? ==> w'.tx.status == Committed)
      && (r.Err? ==> w'.tx.status == if w.tx.rollbackErr.None? then RolledBack else Open)
  {
  }

  /** A missing or inactive tenant ends the call with that error before the
      product is looked up: the product double, the history, the alerts and
      the published events are exactly as they were. */
  lemma TenantFailureSkipsProductLookup(hasPublisher: bool, req: AddStockRequest, w: World, now: int)
    requires ValidateRequest(req).None? && w.tx.beginErr.None?
    requires w.tenants.findErr.Some? || (w.tenants.tenant.Some? && !w.tenants.tenant.value.isActive)
    ensures var (r, w') := Run(hasPublisher, req, w, now);
      && r == Err(if w.tenants.findErr.Some? then w.tenants.findErr.value else TenantInactive)
      && w'.tenants.calls == w.tenants.calls + [req.tenantId]
      && w'.products == w.products
      && w'.history == w.history
      && w'.stockAlerts == w.stockAlerts && w'.lowStockAlerts == w.lowStockAlerts
      && w'.published == w.published
  {
  }

  /** Past an active tenant, a failing product lookup or an addition over
      the tenant's limit ends the call before Save and Create: the product
      double only records the lookup, and the history, the alerts and the
      published events are as they were. */
  lemma EarlyFailuresLeaveStoresUntouched(hasPublisher: bool, req: AddStockRequest, w: World, now: int)
    requires NoNilDereference(req, w)
    requires ValidateRequest(req).None? && w.tx.beginErr.None?
    requires w.tenants.findErr.None? && w.tenants.tenant.value.isActive
    requires || w.products.findErr.Some?
             || w.products.product.value.currentStock.value + req.quantity > w.tenants.tenant.value.maxStock.value
    ensures var (r, w') := Run(hasPublisher, req, w, now);
      && r.Err?
      && (w.products.findErr.Some? ==> r.error == w.products.findErr.value)
      && w'.products == w.products.(calls := w.products.calls + [FindCall(req.productId)])
      && w'.history == w.history
      && w'.stockAlerts == w.stockAlerts && w'.lowStockAlerts == w.lowStockAlerts
      && w'.published == w.published
  {
  }

  /** Adding past the limit reports exactly the current stock, the amount,
      their sum and the limit, and keeps the stored stock (8 stays 8). */
  lemma LimitExceededReport(hasPublisher: bool, req: AddStockRequest, w: World, now: int)
    requires NoNilDereference(req, w)
    requires ValidateRequest(req).None? && w.tx.beginErr.None?
    requires w.tenants.findErr.None? && w.tenants.tenant.value.isActive && w.products.findErr.None?
    requires w.products.product.value.currentStock.value + req.quantity > w.tenants.tenant.value.maxStock.value
    ensures var (r, w') := Run(hasPublisher, req, w, now);
      var cur := w.products.product.value.currentStock.value;
      var max := w.tenants.tenant.value.maxStock.value;
      && r == Err(StockExceedsLimit(cur, req.quantity, cur + req.quantity, max))
      && r.error.wouldBe == r.error.current + r.error.adding > r.error.maxAllowed
      && w'.products.product == w.products.product
  {
  }

  /** A failing Save is returned as it is, and Create is never called; the
      product double already holds the advanced stock, because the loaded
      product is the stored object. */
  lemma SaveFailureSkipsAudit(hasPublisher: bool, req: AddStockRequest, w: World, now: int)
    requires NoNilDereference(req, w)
    requires ValidateRequest(req).None? && w.tx.beginErr.None?
    requires w.tenants.findErr.None? && w.tenants.tenant.value.isActive && w.products.findErr.None?
    requires w.products.product.value.currentStock.value + req.quantity <= w.tenants.tenant.value.maxStock.value
    requires w.products.saveErr.Some?
    ensures var (r, w') := Run(hasPublisher, req, w, now);
      var p := w.products.product.value;
      && r == Err(w.products.saveErr.value)
      && w'.history == w.history
      && w'.products.product == Some(p.(currentStock := StockQuantity(p.currentStock.value + req.quantity),
                                        lastUpdated := now))
      && w'.stockAlerts == w.stockAlerts && w'.lowStockAlerts == w.lowStockAlerts
      && w'.published == w.published
  {
  }

  /** A failing Create is returned as it is: the attempted audit record is
      logged but not stored, and no alert, publication or Commit follows. */
  lemma CreateFailureSkipsCommit(hasPublisher: bool, req: AddStockRequest, w: World, now: int)
    requires NoNilDereference(req, w)
    requires ValidateRequest(req).None? && w.tx.beginErr.None?
    requires w.tenants.findErr.None? && w.tenants.tenant.value.isActive && w.products.findErr.None?
    requires w.products.product.value.currentStock.value + req.quantity <= w.tenants.tenant.value.maxStock.value
    requires w.products.saveErr.None? && w.history.createErr.Some?
    ensures var (r, w') := Run(hasPublisher, req, w, now);
      && r == Err(w.history.createErr.value)
      && w'.history.events == w.history.events
      && |w'.history.calls| == |w.history.calls| + 1
      && w'.tx.calls == w.tx.calls + [BeginCall, RollbackCall]
      && w'.stockAlerts == w.stockAlerts && w'.lowStockAlerts == w.lowStockAlerts
      && w'.published == w.published
  {
  }

  /** A success summary adds up, stays within the tenant's limit, matches
      the stored product, and comes with exactly one new audit record. */
  lemma SuccessSummary(hasPublisher: bool, req: AddStockRequest, w: World, now: int)
    requires NoNilDereference(req, w)
    requires Run(hasPublisher, req, w, now).0.Ok?
    ensures ReachesCommit(req, w) && w.tx.commitErr.None?
    ensures var (r, w') := Run(hasPublisher, req, w, now);
      var p := w.products.product.value;
      var t := w.tenants.tenant.value;
      var resp := r.value;
      && resp.newStock == resp.previousStock + resp.added
      && resp.newStock <= resp.maxAllowed
      && resp.previousStock == p.currentStock.value
      && resp.added == req.quantity
      && resp.maxAllowed == t.maxStock.value
      && resp.productId == p.id && resp.productName == p.name
      && resp.utilization == Utilization(resp.newStock, resp.maxAllowed)
      && w'.products.product.Some?
      && w'.products.product.value.currentStock.value == resp.newStock
      && w'.products.product.value.lastUpdated == now
      && w'.history.events == w.history.events +
           [StockAddedEvent(p.id, req.tenantId, StockQuantity(req.quantity), p.currentStock,
                            StockQuantity(resp.newStock), req.addedBy, now, req.notes)]
      && w'.tx.status == Committed
  {
  }

  /** Once Save and Create succeed, the alerts and the publication depend
      only on the new stock, and they happen whether or not Commit then
      fails: a limit alert iff 100 * new > 80 * max, a low-stock alert iff
      new < 10, one publication iff a publisher is configured. */
  lemma AlertsDecidedBeforeCommit(hasPublisher: bool, req: AddStockRequest, w: World, now: int)
    requires NoNilDereference(req, w)
    requires ReachesCommit(req, w)
    ensures var (r, w') := Run(hasPublisher, req, w, now);
      var p := w.products.product.value;
      var t := w.tenants.tenant.value;
      var newStock := p.currentStock.value + req.quantity;
      var after := p.(currentStock := StockQuantity(newStock), lastUpdated := now);
      var event := StockAddedEvent(p.id, req.tenantId, StockQuantity(req.quantity), p.currentStock,
                                   StockQuantity(newStock), req.addedBy, now, req.notes);
      && (r.Ok? <==> w.tx.commitErr.None?)
      && (r.Err? ==> r.error == w.tx.commitErr.value)
      && w'.stockAlerts == w.stockAlerts +
           (if 100 * newStock > 80 * t.maxStock.value
            then [StockLimitAlertEvent(p.id, p.name, StockQuantity(newStock), t.maxStock,
                                       Utilization(newStock, t.maxStock.value), req.tenantId, now)]
            else [])
      && w'.lowStockAlerts == w.lowStockAlerts + (if newStock < 10 then [LowStockAlert(after, 10)] else [])
      && w'.published == w.published + (if hasPublisher then [event] else [])
  {
    var p := w.products.product.value;
    var t := w.tenants.tenant.value;
    UtilizationAboveIff(p.currentStock.value + req.quantity, t.maxStock.value, 80);
  }

  /** A failed call never leaves a committed change behind: either the
      stored product and the history are as they were, or the scope was not
      committed (the in-memory doubles keep what Save and Create did, but
      the transaction holding those writes is rolled back, or stays open when
      the rollback itself fails). */
  lemma FailureCommitsNothing(hasPublisher: bool, req: AddStockRequest, w: World, now: int)
    requires NoNilDereference(req, w)
    requires Run(hasPublisher, req, w, now).0.Err?
    ensures var w' := Run(hasPublisher, req, w, now).1;
      || (w'.products.product == w.products.product && w'.history.events == w.history.events)
      || w'.tx.status != Committed
  {
  }

  /** The only failure that leaves a record in the history double is a
      failing Commit. */
  lemma NoAuditRecordOnFailure(hasPublisher: bool, req: AddStockRequest, w: World, now: int)
    requires NoNilDereference(req, w)
    requires Run(hasPublisher, req, w, now).0.Err?
    requires !(ReachesCommit(req, w) && w.tx.commitErr.Some?)
    ensures Run(hasPublisher, req, w, now).1.history.events == w.history.events
  {
  }

  // ---------------------------------------------------------------------
  // Worked scenarios

  function Scene(max: nat, active: bool, stock: nat): World {
    World(
      TxState(Idle, None, None, None, []),
      TenantStore(Some(Tenant("t1", "Tenant", StockQuantity(max), active)), None, []),
      ProductStore(Some(ProductRecord("p1", "Widget", StockQuantity(stock), 0, "t1")), None, None, []),
      HistoryStore([], None, []),
      [], [], [])
  }

  /** Limit 100, stock 10, add 15: summary {10, 25, 15, 100, 25}, one audit
      record 10 -> 25, no alert. */
  lemma ScenarioRestock(now: int)
    ensures var req := AddStockRequest("p1", 15, "t1", "restock", "u1");
      var (r, w') := Run(true, req, Scene(100, true, 10), now);
      && r == Ok(AddStockResponse("p1", "Widget", 10, 25, 15, 100, 25.0))
      && |w'.history.events| == 1
      && w'.history.events[0].previous.value == 10 && w'.history.events[0].current.value == 25
      && w'.history.events[0].addedBy == "u1" && w'.history.events[0].notes == "restock"
      && w'.stockAlerts == [] && w'.lowStockAlerts == []
      && |w'.published| == 1
  {
    UtilizationExamples();
  }

  /** Limit 10, stock 8, add 5: the limit error {8, 5, 13, 10}; stock stays 8. */
  lemma ScenarioOverLimit(now: int)
    ensures var req := AddStockRequest("p1", 5, "t1", "", "u1");
      var (r, w') := Run(false, req, Scene(10, true, 8), now);
      && r == Err(StockExceedsLimit(8, 5, 13, 10))
      && w'.products.product.value.currentStock.value == 8
      && w'.history.events == []
  {
  }

  /** Limit 100, stock 75, add 10: stock 85 and one limit alert at 85 percent. */
  lemma ScenarioHighUtilization(now: int)
    ensures var req := AddStockRequest("p1", 10, "t1", "", "u1");
      var (r, w') := Run(false, req, Scene(100, true, 75), now);
      && r.Ok? && r.value.newStock == 85
      && |w'.stockAlerts| == 1 && w'.stockAlerts[0].utilization == 85.0
      && w'.stockAlerts[0].productId == "p1"
  {
    UtilizationExamples();
  }

  /** The doubles as the validation and tenant tests build them: no stored
      product and an empty history, with the given tenant double. */
  function SparseScene(tenants: TenantStore): World {
    World(TxState(Idle, None, None, None, []), tenants, ProductStore(None, None, None, []),
          HistoryStore([], None, []), [], [], [])
  }

  /** Over empty doubles, each malformed request is answered with its own
      validation error and nothing is touched. */
  lemma ScenarioValidation(now: int)
    ensures var w := SparseScene(TenantStore(None, None, []));
      && Run(false, AddStockRequest("", 5, "t1", "", ""), w, now) == (Err(InvalidProductID), w)
      && Run(false, AddStockRequest("p1", 5, "", "", ""), w, now) == (Err(TenantNotFound), w)
      && Run(false, AddStockRequest("p1", 0, "t1", "", ""), w, now) == (Err(InvalidQuantity), w)
      && Run(false, AddStockRequest("p1", -1, "t1", "", ""), w, now) == (Err(InvalidQuantity), w)
  {
  }

  /** A failing tenant lookup over an empty product double: that error, and
      the product double and the history are untouched. */
  lemma ScenarioTenantNotFound(now: int)
    ensures var w := SparseScene(TenantStore(None, Some(Opaque("tenant not found")), []));
      var (r, w') := Run(false, AddStockRequest("p1", 5, "t1", "", "u1"), w, now);
      && r == Err(Opaque("tenant not found"))
      && w'.products == w.products && w'.history == w.history
  {
  }

  /** An inactive tenant over an empty product double: the error, and
      nothing stored or recorded. */
  lemma ScenarioInactiveTenant(now: int)
    ensures var w := SparseScene(TenantStore(Some(Tenant("t1", "Tenant", StockQuantity(100), false)), None, []));
      var (r, w') := Run(false, AddStockRequest("p1", 5, "t1", "", "u1"), w, now);
      && r == Err(TenantInactive)
      && w'.products == w.products && w'.history == w.history
  {
  }
}
