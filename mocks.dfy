/** The in-memory collaborators the workflow runs against: the repository
    doubles of internal/testutil/mocks/mockTenantRepo.go and a unit of work
    whose Begin/Commit/Rollback follow the session handling of
    internal/infrastructure/persistence/mongo_repository.go. Each double
    keeps a ghost log of the calls it received. */
module Mocks {
  import opened Wrappers
  import opened DomainErrors
  import opened Domain

  datatype ProductCall = FindCall(productId: string) | SaveCall(saved: ProductRecord)

  class ProductRepo {
    /** The stored product; FindByID hands out this very object. */
    var product: Product?
    var findErr: Option<Error>
    var saveErr: Option<Error>
    ghost var calls: seq<ProductCall>

    constructor (stored: Product?, findErr: Option<Error>, saveErr: Option<Error>)
      ensures product == stored && this.findErr == findErr && this.saveErr == saveErr && calls == []
    {
      product, this.findErr, this.saveErr, calls := stored, findErr, saveErr, [];
    }

    /** The configured error if there is one, else the stored object itself
        (an alias, not a copy). */
    method FindByID(productId: string) returns (p: Product?, err: Option<Error>)
      modifies this`calls
      ensures calls == old(calls) + [FindCall(productId)]
      ensures err == findErr
      ensures p == if findErr.Some? then null else product
    {
      calls := calls + [FindCall(productId)];
      if findErr.Some? {
        return null, findErr;
      }
      return product, None;
    }

    /** With a configured error nothing is stored; otherwise the stored
        product, when there is one, takes the fields of the argument. */
    method Save(p: Product) returns (err: Option<Error>)
      modifies this`calls, product
      ensures calls == old(calls) + [SaveCall(old(p.Record()))]
      ensures err == saveErr
      ensures saveErr.Some? && product != null ==> product.Record() == old(product.Record())
      ensures saveErr.None? && product != null ==> product.Record() == old(p.Record())
    {
      calls := calls + [SaveCall(p.Record())];
      if saveErr.Some? {
        return saveErr;
      }
      if product != null {
        product.Assign(p.Record());
      }
      return None;
    }

    /** Accepted and ignored. */
    method UpdateStock(productId: string, newStock: StockQuantity) returns (err: Option<Error>)
      ensures err == None
    {
      return None;
    }
  }

  class TenantRepo {
    var tenant: Option<Tenant>
    var findErr: Option<Error>
    ghost var calls: seq<string>

    constructor (stored: Option<Tenant>, findErr: Option<Error>)
      ensures tenant == stored && this.findErr == findErr && calls == []
    {
      tenant, this.findErr, calls := stored, findErr, [];
    }

    method FindByID(tenantId: string) returns (r: Result<Option<Tenant>, Error>)
      modifies this`calls
      ensures calls == old(calls) + [tenantId]
      ensures findErr.Some? ==> r == Err(findErr.value)
      ensures findErr.None? ==> r == Ok(tenant)
    {
      calls := calls + [tenantId];
      if findErr.Some? {
        return Err(findErr.value);
      }
      return Ok(tenant);
    }
  }

  class StockHistoryRepo {
    var events: seq<StockAddedEvent>
    var createErr: Option<Error>
    /** Every event Create was called with, whether or not it was stored. */
    ghost var calls: seq<StockAddedEvent>

    constructor (createErr: Option<Error>)
      ensures events == [] && this.createErr == createErr && calls == []
    {
      events, this.createErr, calls := [], createErr, [];
    }

    /** Appends exactly the given event, keeping what was there, unless an
        error is configured, in which case nothing is recorded. */
    method Create(e: StockAddedEvent) returns (err: Option<Error>)
      modifies this`events, this`calls
      ensures calls == old(calls) + [e]
      ensures err == createErr
      ensures events == if createErr.Some? then old(events) else old(events) + [e]
    {
      calls := calls + [e];
      if createErr.Some? {
        return createErr;
      }
      events := events + [e];
      return None;
    }
  }

  /** Idle: no session yet. Open: a transaction is in progress. Committed
      and RolledBack: the session was ended by Commit or by Rollback. */
  datatype TxStatus = Idle | Open | Committed | RolledBack {
    predicate HasSession() { Open? }
  }

  datatype TxCall = BeginCall | CommitCall | RollbackCall

  class UnitOfWork {
    const products: ProductRepo
    const tenants: TenantRepo
    const history: StockHistoryRepo
    var status: TxStatus
    /** Failures the storage session is configured to report. */
    var beginErr: Option<Error>
    var commitErr: Option<Error>
    var rollbackErr: Option<Error>
    ghost var calls: seq<TxCall>

    constructor (products: ProductRepo, tenants: TenantRepo, history: StockHistoryRepo,
                 beginErr: Option<Error>, commitErr: Option<Error>, rollbackErr: Option<Error>)
      ensures this.products == products && this.tenants == tenants && this.history == history
      ensures status == Idle && calls == []
      ensures this.beginErr == beginErr && this.commitErr == commitErr && this.rollbackErr == rollbackErr
    {
      this.products, this.tenants, this.history := products, tenants, history;
      status, calls := Idle, [];
      this.beginErr, this.commitErr, this.rollbackErr := beginErr, commitErr, rollbackErr;
    }

    /** Opens a session, unless starting it fails. */
    method Begin() returns (err: Option<Error>)
      modifies this`status, this`calls
      ensures calls == old(calls) + [BeginCall]
      ensures err == beginErr
      ensures status == if beginErr.Some? then old(status) else Open
    {
      calls := calls + [BeginCall];
      if beginErr.Some? {
        return beginErr;
      }
      status := Open;
      return None;
    }

    /** Without an open session this succeeds and does nothing; a failing
        commit leaves the session open. */
    method Commit() returns (err: Option<Error>)
      modifies this`status, this`calls
      ensures calls == old(calls) + [CommitCall]
      ensures err == if old(status).HasSession() then commitErr else None
      ensures status == if old(status).HasSession() && commitErr.None? then Committed else old(status)
    {
      calls := calls + [CommitCall];
      if !status.HasSession() {
        return None;
      }
      if commitErr.Some? {
        return commitErr;
      }
      status := Committed;
      return None;
    }

    /** Without an open session (never begun, or already committed) this is
        a no-op; a failing abort leaves the session open. */
    method Rollback() returns (err: Option<Error>)
      modifies this`status, this`calls
      ensures calls == old(calls) + [RollbackCall]
      ensures err == if old(status).HasSession() then rollbackErr else None
      ensures status == if old(status).HasSession() && rollbackErr.None? then RolledBack else old(status)
    {
      calls := calls + [RollbackCall];
      if !status.HasSession() {
        return None;
      }
      if rollbackErr.Some? {
        return rollbackErr;
      }
      status := RolledBack;
      return None;
    }
  }
}
