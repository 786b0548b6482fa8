# Stock-addition workflow, modelled in Dafny

This project models the stock-addition workflow of a multi-tenant inventory
service written in Go. A request adds a quantity to one product. The service
checks the request, opens a transaction and loads the tenant. It refuses an
inactive tenant, then loads the product and applies the addition against the
tenant's stock ceiling. It saves the product, records an audit event and
raises threshold alerts. Finally it commits and returns a summary. The HTTP
handler maps the outcome to a status code and a body.

Modules, one per source file or component:

- `DomainErrors` (`errors.dfy`): the five sentinel errors, the structured
  `StockExceedsLimit` error and its message text. `Opaque(text)` stands for
  any other error value and `Wrapped(context, inner)` for a `%w`-wrapped one.
  A reader for the limit message shows that the text gives back all four
  fields.
- `Fmt` (`fmt.dfy`): Go's `%d` rendering of integers and the reader for it.
- `Domain` (`entities.dfy`): the `StockQuantity` value object, whose `nat`
  type carries the non-negativity invariant. `Product` is a class, because
  `AddStock` changes its fields in place; `AddStockTo` is the pure function
  that specifies it. `Tenant` and the two event records are values. It also
  holds the utilization, low-stock and recently-updated queries.
- `Mocks` (`mocks.dfy`): the in-memory repositories the use case runs
  against, as classes. `FindByID` hands out the stored `Product` object
  itself, `Save` copies fields into it, and `Create` appends to the history.
  `UnitOfWork` has the session states Idle, Open, Committed and RolledBack.
  With no open session, Commit and Rollback succeed and do nothing, so the
  deferred Rollback after a successful Commit is a no-op. Each double keeps a
  ghost log of its calls.
- `UseCases` (`usecase.dfy`): the request and response records and
  `ValidateRequest`. `World` is an abstract view of every collaborator, and
  `Run` is the pure specification of the call over it. The class method
  `AddStockUseCase.Execute` is the imperative orchestrator. Its postcondition
  says that its result and the new state of every object are exactly what
  `Run` gives. Go's `defer uow.Rollback(ctx)` becomes an explicit Rollback
  after the in-scope steps. The stock alert, the low-stock alert and the
  published events are ghost traces on the use case.
- `AddStockProperties` (`properties.dfy`): the workflow's guarantees as
  lemmas about `Run`, plus the worked scenarios from the use-case tests.
- `HttpHandler` (`handler.dfy`): `HandleError` maps an error to a status,
  message and code. `AddStock` is the handler, with the use case passed in
  as a function.

Time is an injected integer `now`, in seconds. The recent-update window is
300 s, the five minutes of the source. The low-stock threshold 10 and the
alert threshold 80 are the literals the use case uses.

Because the product double aliases the loaded product, the stored product
changes as soon as `AddStock` succeeds. A later failure of Save, Create or
Commit therefore leaves the advanced stock in the double, and a failing
Commit also leaves the audit record in the history double. `FailureCommitsNothing`
states what holds anyway: on every failure, either the stores are as they
were, or the scope was not committed. Stock stays unchanged on the early
failures (tenant missing or inactive, product missing, limit exceeded)
because `AddStock` changes nothing when it fails.

`Execute` computes `IsRecentlyUpdated` and ignores it, as the source does,
so its contract does not mention the recent-update window.

The handler has no case for `InvalidProductID`, so an empty product id is
answered with 500 "Internal server error". An empty tenant id is answered
with 404 `TENANT_NOT_FOUND`, because validation reuses the tenant-not-found
sentinel. `ValidationErrorsAtTheBoundary` states both.

## Model

| member | source | states |
|---|---|---|
| `Domain.NewStockQuantity` | internal/domain/entities.go:14-19 | fails exactly when q < 0, with the "quantity cannot be negative" error; zero is accepted and the value is stored unchanged |
| `Domain.StockQuantity.Add` | internal/domain/entities.go:25-27 | the sum of the two quantities |
| `Domain.StockQuantity.Exceeds` | internal/domain/entities.go:29-31 | true exactly when the value is strictly above the limit, so a value equal to the limit does not exceed it |
| `Domain.AddStockTo` | internal/domain/entities.go:42-57 | succeeds exactly when current + q <= max. Then the stock is current + q (hence within max), the timestamp is now, and id, name and tenant id are kept. Otherwise the error is `StockExceedsLimit(current, q, current + q, max)` |
| `Domain.Product.AddStock` | internal/domain/entities.go:42-57 | on success the fields become those `AddStockTo` gives; on failure it returns the limit error and no field changes |
| `Domain.Product.Assign` | internal/testutil/mocks/mockTenantRepo.go:30 | every field takes the value of the copied product (`*m.Product = *product`) |
| `Domain.LimitErrorIsConsistent` | internal/domain/entities.go:45-51 | the limit error as raised has would-be = current + adding, would-be > max, and non-negative fields |
| `Domain.IsRecentlyUpdated` | internal/domain/entities.go:59-61 | true exactly when the last update is less than the threshold before now |
| `Domain.IsLowStock` | internal/domain/entities.go:63-65 | true exactly when the stock is strictly below the threshold |
| `Domain.Utilization` | internal/domain/entities.go:67-72 | 0 when max is 0; otherwise utilization * max = 100 * current; never negative |
| `Domain.UtilizationPercentage` | internal/domain/entities.go:67-72 | 0 for a zero limit; otherwise percentage * max = 100 * current stock |
| `Domain.UtilizationAboveIff` | internal/application/usecases/add_stock_usecase.go:126-127 | the percentage is above p exactly when max > 0 and 100 * current > p * max, so the `> 80` test is exact on integers |
| `Domain.UtilizationAtMostFull` | internal/domain/entities.go:67-72 | within the limit, utilization is at most 100 |
| `Domain.UtilizationExamples` | internal/application/usecases/add_stock_usecase_test.go:249-251 | 25 of 100 is 25, 85 of 100 is 85, any stock of a zero limit is 0 |
| `Domain.CanReceiveStock` | internal/domain/entities.go:81-86 | `TenantInactive` exactly when the tenant is inactive, else no error; a pure function, so no side effect |
| `DomainErrors.Message` | internal/domain/errors.go:9-29 | a limit error's text starts with "cannot exceed max stock of "; a wrapped error's text ends with the inner error's text |
| `DomainErrors.SentinelsDistinct` | internal/domain/errors.go:9-15 | the five sentinels have pairwise distinct texts, none equal to a limit error's text |
| `DomainErrors.LimitMessageRoundTrip` | internal/domain/errors.go:24-29 | the message "cannot exceed max stock of M. Current: C, Adding: A, Would be: W" reads back to exactly the four fields, in that order |
| `DomainErrors.LimitMessageDeterminesFields` | internal/domain/errors.go:17-29 | two limit errors with the same text carry the same four integers |
| `Fmt.ReadIntOfDecimal` | internal/domain/errors.go:25-28 | what `%d` prints for any integer reads back to that integer |
| `Mocks.ProductRepo.FindByID` | internal/testutil/mocks/mockTenantRepo.go:18-23 | the configured error with nil, else the stored object itself (an alias); logs the call |
| `Mocks.ProductRepo.Save` | internal/testutil/mocks/mockTenantRepo.go:25-33 | with a configured error the stored product is untouched; otherwise a stored product takes the argument's fields; logs the argument |
| `Mocks.ProductRepo.UpdateStock` | internal/testutil/mocks/mockTenantRepo.go:35-37 | succeeds and changes nothing |
| `Mocks.TenantRepo.FindByID` | internal/testutil/mocks/mockTenantRepo.go:45-50 | the configured error, else the stored tenant |
| `Mocks.StockHistoryRepo.Create` | internal/testutil/mocks/mockTenantRepo.go:59-65 | with a configured error the events are unchanged; otherwise exactly the given event is appended after the old events |
| `Mocks.UnitOfWork.Begin` | internal/infrastructure/persistence/mongo_repository.go:31-44 | opens the session unless starting it fails, and then nothing changes |
| `Mocks.UnitOfWork.Commit` | internal/infrastructure/persistence/mongo_repository.go:46-58 | with no open session it succeeds and does nothing; otherwise it commits, or fails and leaves the session open |
| `Mocks.UnitOfWork.Rollback` | internal/infrastructure/persistence/mongo_repository.go:60-72 | with no open session (never begun, or committed) it does nothing; otherwise it rolls back, or fails and leaves the session open |
| `UseCases.ValidateRequest` | internal/application/usecases/add_stock_usecase.go:175-186 | passes exactly when product id and tenant id are non-empty and quantity > 0. Otherwise the first failing check gives InvalidProductID, then TenantNotFound, then InvalidQuantity |
| `UseCases.Run` | internal/application/usecases/add_stock_usecase.go:57-173 | the reference definition of the call; it never changes the tenant or any configured error, and a success leaves the scope Committed with exactly one more history event |
| `UseCases.AddStockUseCase.constructor` | internal/application/usecases/add_stock_usecase.go:44-55 | keeps the unit of work and whether a publisher is set, fixes the recent-update window at 300 s, and starts with no alert or publication |
| `UseCases.AddStockUseCase.Execute` | internal/application/usecases/add_stock_usecase.go:57-173 | the result and the new state of every collaborator object are exactly those `Run` gives for the state before the call, and the product double still holds the same `Product` object |
| `UseCases.AddStockUseCase.ExecuteInScope` | internal/application/usecases/add_stock_usecase.go:69-96 | tenant lookup, eligibility, product lookup and quantity construction, in that order, each returning its error, as `InScope` gives; the same stored `Product` object stays in the double |
| `UseCases.AddStockUseCase.ApplyStep` | internal/application/usecases/add_stock_usecase.go:98-123 | AddStock on the stored product, then Save, then the audit Create, each returning its error, as `Apply` gives; the same stored `Product` object stays in the double |
| `UseCases.AddStockUseCase.FinishStep` | internal/application/usecases/add_stock_usecase.go:125-172 | the alerts and the publication before Commit, then Commit and the summary, as `Finish` gives |
| `AddStockProperties.ValidationComesFirst` | internal/application/usecases/add_stock_usecase.go:59-61 | a malformed request returns the validation error and leaves every collaborator, logs included, untouched; with both ids present a quantity <= 0 gives InvalidQuantity |
| `AddStockProperties.BeginFailureSkipsRollback` | internal/application/usecases/add_stock_usecase.go:64-66 | a failing Begin is returned verbatim; the only change is the Begin call, with no Rollback |
| `AddStockProperties.RollbackEndsEveryScope` | internal/application/usecases/add_stock_usecase.go:64-67 | after a successful Begin the session calls are Begin, then Commit if reached, then exactly one Rollback. Success leaves the scope Committed; failure leaves it RolledBack, or Open if the rollback itself fails |
| `AddStockProperties.TenantFailureSkipsProductLookup` | internal/application/usecases/add_stock_usecase.go:69-78 | a failing tenant lookup returns its error and an inactive tenant returns `TenantInactive`; the product double (its log included), the history, the alerts and the publications are exactly as before, with or without a stored product |
| `AddStockProperties.EarlyFailuresLeaveStoresUntouched` | internal/application/usecases/add_stock_usecase.go:80-102 | past an active tenant, a failing product lookup returns its error and an addition over the limit fails; the product double only logs the lookup, and history, alerts and publications are unchanged |
| `AddStockProperties.SaveFailureSkipsAudit` | internal/application/usecases/add_stock_usecase.go:104-107 | a failing Save returns its error; the history (log included), alerts and publications are unchanged, and the aliased stored product already holds current + q with timestamp now |
| `AddStockProperties.CreateFailureSkipsCommit` | internal/application/usecases/add_stock_usecase.go:121-123 | a failing Create returns its error; the history events are unchanged with one logged attempt, the session calls are Begin then Rollback with no Commit, and no alert or publication goes out |
| `AddStockProperties.LimitExceededReport` | internal/application/usecases/add_stock_usecase.go:99-102 | over the limit the error is `StockExceedsLimit(current, q, current + q, max)`, with would-be = current + adding > max, and the stored product keeps its stock |
| `AddStockProperties.SuccessSummary` | internal/application/usecases/add_stock_usecase.go:104-172 | success implies every step succeeded. NewStock = PreviousStock + Added <= MaxAllowed, and the fields match the product, the request and the tenant. Utilization uses the new stock, the stored stock equals NewStock, exactly one audit event with these fields is appended, and the scope is Committed |
| `AddStockProperties.AlertsDecidedBeforeCommit` | internal/application/usecases/add_stock_usecase.go:125-161 | once Save and Create succeed, a limit alert with these fields is dispatched iff 100 * new > 80 * max. A low-stock alert goes out iff new < 10, and the event is published once iff a publisher is set. All of this holds whether Commit then fails or not |
| `AddStockProperties.FailureCommitsNothing` | internal/application/usecases/add_stock_usecase.go:64-161 | on any failure either the stored product and the history are unchanged, or the scope is not committed |
| `AddStockProperties.NoAuditRecordOnFailure` | internal/application/usecases/add_stock_usecase.go:121-123 | every failure other than a failing Commit leaves the history events unchanged |
| `AddStockProperties.ScenarioRestock` | internal/application/usecases/add_stock_usecase_test.go:210-272 | limit 100, stock 10, add 15 gives {10, 25, 15, 100, 25}, one audit record 10 to 25 with actor and note, no alert, one publication |
| `AddStockProperties.ScenarioOverLimit` | internal/application/usecases/add_stock_usecase_test.go:134-160 | limit 10, stock 8, add 5 gives the limit error {8, 5, 13, 10}; the stock stays 8 and nothing is recorded |
| `AddStockProperties.ScenarioHighUtilization` | internal/application/usecases/add_stock_usecase_test.go:298-328 | limit 100, stock 75, add 10 gives stock 85 and one limit alert for p1 at 85 percent |
| `AddStockProperties.ScenarioValidation` | internal/application/usecases/add_stock_usecase_test.go:27-73 | over empty doubles, an empty product id, an empty tenant id, quantity 0 and quantity -1 give their validation errors and change nothing |
| `AddStockProperties.ScenarioTenantNotFound` | internal/application/usecases/add_stock_usecase_test.go:75-92 | a failing tenant lookup over an empty product double returns that error, and the product double and history are unchanged |
| `AddStockProperties.ScenarioInactiveTenant` | internal/application/usecases/add_stock_usecase_test.go:94-112 | an inactive tenant over an empty product double gives `TenantInactive`, and the product double and history are unchanged |
| `HttpHandler.HandleError` | internal/api/http/handler.go:74-113 | the limit error (matched by type, first) gives 400 `STOCK_LIMIT_EXCEEDED` with its own text. Product and tenant not found give 404, inactive tenant and invalid quantity give 400. Anything else, `InvalidProductID` and wrapped errors included, gives 500 "Internal server error" with no code |
| `HttpHandler.AddStock` | internal/api/http/handler.go:26-72 | an unparsable body gives 400; the answer is 200 exactly when the body parses and the use case succeeds; every status is 200, 400, 404 or 500 |
| `HttpHandler.ToAppRequest` | internal/api/http/handler.go:36-45 | the body's four fields, with the actor taken from the authenticated user id |
| `HttpHandler.ErrorClassesAreExhaustive` | internal/api/http/handler.go:74-113 | every error maps to 400, 404 or 500. 404 means exactly the two not-found sentinels; a code is present exactly when the status is not 500; a 500 reveals nothing of the error |
| `HttpHandler.CodeIdentifiesError` | internal/api/http/handler.go:76-105 | equal non-empty codes mean the same sentinel or two limit errors; equal limit responses mean equal limit errors |
| `HttpHandler.WrappedErrorsAreInternal` | internal/api/http/handler.go:76-112 | a wrapped error, even a wrapped limit error, gives 500 |
| `HttpHandler.ParseFailureSkipsUseCase` | internal/api/http/handler.go:29-33 | a body that does not parse gives 400 "Invalid request format", whatever the use case would do |
| `HttpHandler.SuccessCopiesSummary` | internal/api/http/handler.go:51-68 | on success: status 200, Success true, and the seven summary fields copied unchanged |
| `HttpHandler.FailureIsClassified` | internal/api/http/handler.go:51-54 | on failure the answer is `HandleError` of the use case's error |
| `HttpHandler.ValidationErrorsAtTheBoundary` | internal/api/http/handler.go:86-111 | an empty product id gives 500, an empty tenant id gives 404 `TENANT_NOT_FOUND`, a non-positive quantity gives 400 `INVALID_QUANTITY` |

## Left out

- Goroutines: the two alerts run in goroutines, with no ordering and a captured product pointer. The model dispatches them synchronously, in source order, as ghost-trace entries. The low-stock alert records the product as it stood at dispatch.
- The notification service's log, Slack and email output, and the publisher's error, which the use case ignores; only the calls are recorded.
- Floating point: utilization is a `real`, exactly 100 * current / max, with no float64 rounding.
- Wall-clock time (`time.Now`, `time.Since`) is the parameter `now`.
- Context cancellation, the 10-second handler timeout, Fiber request parsing, middleware, JSON tags and the RFC 3339 timestamp. The handler takes the parse result, the user id and the timestamp as parameters.
- MongoDB I/O and BSON mapping. Only the session handling of Begin, Commit and Rollback is modelled, as the `UnitOfWork` state machine.
- UseCases.AddStockUseCase.Execute: requires `NoNilDereference`. Once validation and Begin pass, a tenant lookup that reports no error must hand out a tenant (dereferenced by the eligibility check, add_stock_usecase.go:76). When an active tenant is followed by a clean product lookup and a valid quantity, that lookup must hand out a product (dereferenced from add_stock_usecase.go:93). Only in those two situations does the Go code dereference nil and panic; the panic, and the deferred Rollback that would run while it unwinds, are not modelled. `Run`, `ExecuteInScope` and the workflow lemmas carry the same condition, and every call that stops earlier, over empty doubles included, is covered.
- The `log.Printf` of internal errors in `handleError` (handler.go:108): logging is output only and does not change the response.
- The panic of `c.Locals("user_id").(string)` when the auth middleware set no user id (handler.go:36): the handler takes the user id as a string parameter, so that case is not modelled.
- Integer overflow of Go's `int` in `Add`: Dafny integers are unbounded.
- Error identity: Go compares `errors.New` values by identity, so two errors with the same text differ. The model compares `Opaque` errors by their text.
- Concurrent additions to the same product: the model runs one call at a time on one store.
- `mockUnitOfWork.go`, `mockNotificationService.go` and `mockEventPublisher.go`: their accessors and call counters are the `UnitOfWork` fields and the ghost traces.
