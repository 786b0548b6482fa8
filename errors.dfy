/** The error values of the domain layer (internal/domain/errors.go): five
    sentinel errors, the structured limit-exceeded error, and the opaque and
    wrapped errors that collaborators may return. */
module DomainErrors {
  import opened Wrappers
  import opened Fmt

  datatype Error =
    | ProductNotFound
    | TenantNotFound
    | TenantInactive
    | InvalidQuantity
    | InvalidProductID
      /** The structured business-rule violation raised by Product.AddStock. */
    | StockExceedsLimit(current: int, adding: int, wouldBe: int, maxAllowed: int)
      /** Any other error value created with its own text (storage failures,
          the value-object constructor's error). */
    | Opaque(text: string)
      /** An error wrapped with `%w` under a context prefix, as the storage
          adapters do with driver errors. */
    | Wrapped(context: string, inner: Error)
  {
    predicate IsSentinel() {
      ProductNotFound? || TenantNotFound? || TenantInactive? || InvalidQuantity? || InvalidProductID?
    }
  }

  const LimitPrefix := "cannot exceed max stock of "
  const CurrentLabel := ". Current: "
  const AddingLabel := ", Adding: "
  const WouldBeLabel := ", Would be: "

  /** The text the error's `Error()` method returns. */
  /** The text `Error()` gives. A limit message is recognisable by its
      prefix, and a wrapped error keeps the inner text at its end. */
  function Message(e: Error): (m: string)
    ensures e.StockExceedsLimit? ==> |LimitPrefix| < |m| && m[..|LimitPrefix|] == LimitPrefix
    ensures e.Wrapped? ==> |Message(e.inner)| <= |m| && m[|m| - |Message(e.inner)|..] == Message(e.inner)
  {
    match e
    case ProductNotFound => "product not found"
    case TenantNotFound => "tenant not found"
    case TenantInactive => "tenant is inactive"
    case InvalidQuantity => "invalid quantity"
    case InvalidProductID => "invalid product id"
    case StockExceedsLimit(c, a, w, m) =>
      LimitPrefix + (IntToDecimal(m) + (CurrentLabel + (IntToDecimal(c)
        + (AddingLabel + (IntToDecimal(a) + (WouldBeLabel + IntToDecimal(w)))))))
    case Opaque(t) => t
    case Wrapped(ctx, inner) => ctx + ": " + Message(inner)
  }

  /** Strips the literal `lit` from the front of `s`. */
  function Expect(lit: string, s: string): (r: Option<string>)
    ensures r.Some? <==> lit <= s
    ensures r.Some? ==> s == lit + r.value
  {
    if lit <= s then Some(s[|lit|..]) else None
  }

  /** Reads a limit-exceeded message back into its four fields. */
  function ParseLimitMessage(s: string): Option<Error> {
    var s1 :- Expect(LimitPrefix, s);
    var mr :- ReadInt(s1);
    var s2 :- Expect(CurrentLabel, mr.1);
    var cr :- ReadInt(s2);
    var s3 :- Expect(AddingLabel, cr.1);
    var ar :- ReadInt(s3);
    var s4 :- Expect(WouldBeLabel, ar.1);
    var wr :- ReadInt(s4);
    if wr.1 == [] then Some(StockExceedsLimit(cr.0, ar.0, wr.0, mr.0)) else None
  }

  lemma ExpectConcat(lit: string, rest: string)
    ensures Expect(lit, lit + rest) == Some(rest)
  {
    assert (lit + rest)[..|lit|] == lit;
    assert (lit + rest)[|lit|..] == rest;
  }

  /** The limit message lists the maximum, current, adding and would-be
      values, in that order, each readable back from the text. */
  lemma {:induction false} LimitMessageRoundTrip(c: int, a: int, w: int, m: int)
    ensures ParseLimitMessage(Message(StockExceedsLimit(c, a, w, m))) == Some(StockExceedsLimit(c, a, w, m))
  {
    var dm, dc, da, dw := IntToDecimal(m), IntToDecimal(c), IntToDecimal(a), IntToDecimal(w);
    var r4 := WouldBeLabel + dw;
    var t3 := da + r4;
    var r3 := AddingLabel + t3;
    var t2 := dc + r3;
    var r2 := CurrentLabel + t2;
    var t1 := dm + r2;
    var s := LimitPrefix + t1;
    assert Message(StockExceedsLimit(c, a, w, m)) == s;
    ExpectConcat(LimitPrefix, t1);
    ReadIntOfDecimal(m, r2);
    ExpectConcat(CurrentLabel, t2);
    ReadIntOfDecimal(c, r3);
    ExpectConcat(AddingLabel, t3);
    ReadIntOfDecimal(a, r4);
    ExpectConcat(WouldBeLabel, dw);
    assert dw + [] == dw;
    ReadIntOfDecimal(w, []);
  }

  /** Two limit errors with the same message carry the same four fields. */
  lemma LimitMessageDeterminesFields(e1: Error, e2: Error)
    requires e1.StockExceedsLimit? && e2.StockExceedsLimit?
    requires Message(e1) == Message(e2)
    ensures e1 == e2
  {
    LimitMessageRoundTrip(e1.current, e1.adding, e1.wouldBe, e1.maxAllowed);
    LimitMessageRoundTrip(e2.current, e2.adding, e2.wouldBe, e2.maxAllowed);
  }

  /** The five sentinels are distinct values with distinct texts, and none of
      those texts is the text of a limit error. */
  lemma SentinelsDistinct(e1: Error, e2: Error, l: Error)
    requires e1.IsSentinel() && e2.IsSentinel() && e1 != e2
    requires l.StockExceedsLimit?
    ensures Message(e1) != Message(e2)
    ensures Message(l) != Message(e1)
  {
    var s := Message(l);
    assert s[0] == 'c';
  }
}
