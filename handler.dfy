/** The HTTP boundary of the stock-addition call (internal/api/http/handler.go):
    how a use-case outcome becomes a status code and a body. Parsing the body
    is given as its result; the use case is passed in as a function. */
module HttpHandler {
  import opened Wrappers
  import opened DomainErrors
  import UseCases

  /** The JSON body as parsed (it carries no actor field). */
  datatype RequestBody = RequestBody(productId: string, quantity: int, tenantId: string, notes: string)

  /** The error body; an empty code is left out of the JSON. */
  datatype ErrorBody = ErrorBody(error: string, code: string)

  datatype SuccessBody = SuccessBody(
    success: bool,
    productId: string,
    productName: string,
    previous: int,
    newStock: int,
    added: int,
    maxAllowed: int,
    utilization: real,
    message: string,
    timestamp: string)

  datatype Body = Failure(err: ErrorBody) | Success(ok: SuccessBody)

  datatype HttpResponse = HttpResponse(status: int, body: Body)

  /** The limit error is matched by its type first, with its own text; the
      sentinels are matched by identity; everything else, wrapped sentinels
      and the invalid-product-id error included, is an internal error. */
  function HandleError(e: Error): (r: HttpResponse)
    ensures r.body.Failure?
    ensures e.StockExceedsLimit? ==> r == HttpResponse(400, Failure(ErrorBody(Message(e), "STOCK_LIMIT_EXCEEDED")))
    ensures e == ProductNotFound ==> r == HttpResponse(404, Failure(ErrorBody("Product not found", "PRODUCT_NOT_FOUND")))
    ensures e == TenantNotFound ==> r == HttpResponse(404, Failure(ErrorBody("Tenant not found", "TENANT_NOT_FOUND")))
    ensures e == TenantInactive ==> r == HttpResponse(400, Failure(ErrorBody("Tenant is inactive", "TENANT_INACTIVE")))
    ensures e == InvalidQuantity ==> r == HttpResponse(400, Failure(ErrorBody("Quantity must be positive", "INVALID_QUANTITY")))
    ensures e.InvalidProductID? || e.Opaque? || e.Wrapped? ==>
              r == HttpResponse(500, Failure(ErrorBody("Internal server error", "")))
  {
    match e
    case StockExceedsLimit(_, _, _, _) =>
      HttpResponse(400, Failure(ErrorBody(Message(e), "STOCK_LIMIT_EXCEEDED")))
    case ProductNotFound => HttpResponse(404, Failure(ErrorBody("Product not found", "PRODUCT_NOT_FOUND")))
    case TenantNotFound => HttpResponse(404, Failure(ErrorBody("Tenant not found", "TENANT_NOT_FOUND")))
    case TenantInactive => HttpResponse(400, Failure(ErrorBody("Tenant is inactive", "TENANT_INACTIVE")))
    case InvalidQuantity => HttpResponse(400, Failure(ErrorBody("Quantity must be positive", "INVALID_QUANTITY")))
    case _ => HttpResponse(500, Failure(ErrorBody("Internal server error", "")))
  }

  /** The application request: the body's fields, and the actor taken from
      the authenticated user id. */
  function ToAppRequest(b: RequestBody, userId: string): (r: UseCases.AddStockRequest)
    ensures r.addedBy == userId
    ensures r.productId == b.productId && r.quantity == b.quantity
    ensures r.tenantId == b.tenantId && r.notes == b.notes
  {
    UseCases.AddStockRequest(b.productId, b.quantity, b.tenantId, b.notes, userId)
  }

  function ToSuccess(resp: UseCases.AddStockResponse, timestamp: string): HttpResponse {
    HttpResponse(200, Success(SuccessBody(true, resp.productId, resp.productName, resp.previousStock,
                                          resp.newStock, resp.added, resp.maxAllowed, resp.utilization,
                                          "Stock updated successfully", timestamp)))
  }

  /** The handler: a body that does not parse is refused with 400, else the
      use case runs on the converted request and its outcome is rendered. */
  function AddStock(parsed: Option<RequestBody>, userId: string,
                    execute: UseCases.AddStockRequest -> Result<UseCases.AddStockResponse, Error>,
                    timestamp: string): (r: HttpResponse)
    ensures parsed.None? ==> r.status == 400
    ensures r.status == 200 <==> parsed.Some? && execute(ToAppRequest(parsed.value, userId)).Ok?
    ensures r.status in {200, 400, 404, 500}
  {
    match parsed
    case None => HttpResponse(400, Failure(ErrorBody("Invalid request format", "")))
    case Some(b) =>
      match execute(ToAppRequest(b, userId))
      case Err(e) => HandleError(e)
      case Ok(resp) => ToSuccess(resp, timestamp)
  }

  /** Every error maps to 400, 404 or 500; a code is present exactly when the
      status is not 500, and a 500 reveals nothing about the error. */
  lemma ErrorClassesAreExhaustive(e: Error)
    ensures var r := HandleError(e);
      && r.status in {400, 404, 500}
      && (r.status == 404 <==> e == ProductNotFound || e == TenantNotFound)
      && (r.status == 500 <==> !(e.StockExceedsLimit? || e == ProductNotFound || e == TenantNotFound
                                 || e == TenantInactive || e == InvalidQuantity))
      && (r.body.err.code == "" <==> r.status == 500)
      && (r.status == 500 ==> r.body.err.error == "Internal server error")
  {
  }

  /** The code names the error: two errors with the same non-empty code are
      the same sentinel, or both limit errors, and then the message tells
      their fields apart. */
  lemma CodeIdentifiesError(e1: Error, e2: Error)
    requires HandleError(e1).body.err.code == HandleError(e2).body.err.code != ""
    ensures e1.StockExceedsLimit? <==> e2.StockExceedsLimit?
    ensures !e1.StockExceedsLimit? ==> e1 == e2
    ensures e1.StockExceedsLimit? && HandleError(e1) == HandleError(e2) ==> e1 == e2
  {
    if e1.StockExceedsLimit? && HandleError(e1) == HandleError(e2) {
      LimitMessageDeterminesFields(e1, e2);
    }
  }

  /** Wrapping hides even a limit error from the handler's matching. */
  lemma WrappedErrorsAreInternal(ctx: string, inner: Error)
    ensures HandleError(Wrapped(ctx, inner)).status == 500
  {
  }

  /** A body that does not parse is answered without running the use case:
      the answer is the same whatever the use case would do. */
  lemma ParseFailureSkipsUseCase(userId: string,
                                 exec1: UseCases.AddStockRequest -> Result<UseCases.AddStockResponse, Error>,
                                 exec2: UseCases.AddStockRequest -> Result<UseCases.AddStockResponse, Error>,
                                 timestamp: string)
    ensures AddStock(None, userId, exec1, timestamp) == AddStock(None, userId, exec2, timestamp)
    ensures AddStock(None, userId, exec1, timestamp) == HttpResponse(400, Failure(ErrorBody("Invalid request format", "")))
  {
  }

  /** On success the seven summary fields are copied unchanged, and the use
      case saw the body's fields with the authenticated user as the actor. */
  lemma SuccessCopiesSummary(b: RequestBody, userId: string,
                             execute: UseCases.AddStockRequest -> Result<UseCases.AddStockResponse, Error>,
                             timestamp: string)
    requires execute(ToAppRequest(b, userId)).Ok?
    ensures var resp := execute(ToAppRequest(b, userId)).value;
      var r := AddStock(Some(b), userId, execute, timestamp);
      && r.status == 200 && r.body.Success? && r.body.ok.success
      && r.body.ok.productId == resp.productId && r.body.ok.productName == resp.productName
      && r.body.ok.previous == resp.previousStock && r.body.ok.newStock == resp.newStock
      && r.body.ok.added == resp.added && r.body.ok.maxAllowed == resp.maxAllowed
      && r.body.ok.utilization == resp.utilization
  {
  }

  /** On failure the answer is the error's classification. */
  lemma FailureIsClassified(b: RequestBody, userId: string,
                            execute: UseCases.AddStockRequest -> Result<UseCases.AddStockResponse, Error>,
                            timestamp: string)
    requires execute(ToAppRequest(b, userId)).Err?
    ensures AddStock(Some(b), userId, execute, timestamp) == HandleError(execute(ToAppRequest(b, userId)).error)
  {
  }

  /** How the use case's own validation errors reach the caller: an empty
      tenant id is answered as a missing tenant (404), a non-positive
      quantity with 400, and an empty product id, for which the handler has
      no case, as an internal error (500). */
  lemma ValidationErrorsAtTheBoundary(req: UseCases.AddStockRequest)
    requires UseCases.ValidateRequest(req).Some?
    ensures var r := HandleError(UseCases.ValidateRequest(req).value);
      && (req.productId == "" ==> r.status == 500)
      && (req.productId != "" && req.tenantId == "" ==> r.status == 404 && r.body.err.code == "TENANT_NOT_FOUND")
      && (req.productId != "" && req.tenantId != "" ==> r.status == 400 && r.body.err.code == "INVALID_QUANTITY")
  {
  }
}
