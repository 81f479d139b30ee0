/** The Amul API stock extractor: the classification of the HTTP reply, the
    checks on its body, the mapping of API products to Products, the filter by
    watched aliases, and checkStock, which runs the fetch under the retry
    executor. The HTTP exchange itself is an input: the reply the server gives
    at each attempt, with what JSON parsing makes of its body. */
module AmulApiStockExtractor {
  import opened Nullable
  import opened Text
  import opened Errors
  import opened Products
  import opened RetryUtility
  import opened RetryProperties

  /** The fields of an API product the model uses. */
  datatype ApiProduct = ApiProduct(name: string, alias: Option<string>, available: int, inventoryQuantity: int)

  /** What Jackson makes of the body: a parse error, the JSON literal null, or a
      response whose `data` list may be absent (null) and may hold null elements. */
  datatype ParsedBody =
    | Unparseable(reason: string)
    | NullResponse
    | ApiResponse(data: Option<seq<Option<ApiProduct>>>)

  /** The server's answer at one attempt, or a failure of the HTTP client. */
  datatype HttpReply =
    | Responded(status: int, reasonPhrase: string, body: Option<string>, parsed: ParsedBody)
    | ClientFailed(error: Exc)

  // ---------------------------------------------------------------------------
  // Status classification

  datatype StatusClass = Success | ServerError | RateLimited | ClientError | UnexpectedStatus

  /** The if-chain on the status code: 5xx and above, then 429, then other codes
      from 400, then anything but 200. */
  function ClassifyStatus(status: int): (c: StatusClass)
    ensures c == Success <==> status == 200
    ensures c == ServerError <==> status >= 500
    ensures c == RateLimited <==> status == 429
    ensures c == ClientError <==> 400 <= status < 500 && status != 429
    ensures c == UnexpectedStatus <==> status < 400 && status != 200
  {
    if status >= 500 then ServerError
    else if status == 429 then RateLimited
    else if status >= 400 then ClientError
    else if status != 200 then UnexpectedStatus
    else Success
  }

  function Extraction(message: string, cause: Cause): Exc
  {
    Exc(StockExtractionException, message, cause)
  }

  /** The StockExtractionException a non-200 status raises. A server error says
      it may be temporary, and a rate-limited reply names status 429; both words
      are ones the retry classifier looks for. */
  function StatusError(status: int, reasonPhrase: string): (e: Exc)
    requires status != 200
    ensures e.cls == StockExtractionException && e.cause == NoCause
    ensures ClassifyStatus(status) == ServerError ==> Contains(e.message, "temporary")
    ensures ClassifyStatus(status) == RateLimited ==> Contains(e.message, "status 429")
  {
    var code := IntToString(status);
    match ClassifyStatus(status)
    case ServerError =>
      var head := "Server error (status " + code + "): " + reasonPhrase + ". This may be ";
      ContainsInfix(head, "temporary", ".");
      Extraction(head + "temporary" + ".", NoCause)
    case RateLimited =>
      ContainsInfix("Rate limit exceeded (", "status 429", "). Please try again later.");
      Extraction("Rate limit exceeded (" + "status 429" + "). Please try again later.", NoCause)
    case ClientError => Extraction("Client error (status " + code + "): " + reasonPhrase, NoCause)
    case UnexpectedStatus => Extraction("Unexpected response status " + code + ": " + reasonPhrase, NoCause)
  }

  const EmptyResponseMessage: string := "Received empty response from API"
  const ParseFailureMessage: string := "Failed to parse JSON response from API"
  const InvalidStructureMessage: string := "API returned null or invalid data structure"
  const UnexpectedErrorMessage: string := "Unexpected error during API call"

  /** The NullPointerException transformToProduct raises on a null element of `data`. */
  const NullElementError: Exc :=
    Exc(OtherException("java.lang.NullPointerException", "NullPointerException"), "amulProduct is null", NoCause)

  // ---------------------------------------------------------------------------
  // Products

  /** transformToProduct: the name, alias and quantity are copied; the product
      is available exactly when the API's flag is 1. */
  function TransformToProduct(a: ApiProduct): (p: Product)
    ensures p.name == a.name && p.alias == a.alias && p.inventoryQuantity == a.inventoryQuantity
    ensures p.available <==> a.available == 1
  {
    Product(a.name, a.alias, a.available == 1, a.inventoryQuantity)
  }

  /** A transformed product is in stock exactly when the API flag is 1 and the
      quantity is positive; a flag of 0, 2 or -1 all mean unavailable. */
  lemma TransformedInStock(a: ApiProduct)
    ensures IsInStock(TransformToProduct(a)) <==> a.available == 1 && a.inventoryQuantity > 0
  {
  }

  /** The `data` list mapped through transformToProduct; absent when an element is null. */
  function TransformAll(data: seq<Option<ApiProduct>>): (r: Option<seq<Product>>)
    ensures r.Some? <==> forall i | 0 <= i < |data| :: data[i].Some?
    ensures r.Some? ==> (|r.value| == |data| && forall i | 0 <= i < |data| :: r.value[i] == TransformToProduct(data[i].value))
  {
    if data == [] then Some([])
    else
      var init := TransformAll(data[..|data| - 1]);
      var x := data[|data| - 1];
      if init.None? || x.None? then None else Some(init.value + [TransformToProduct(x.value)])
  }

  /** List.contains(alias) on the watched aliases, which compares with equals:
      the list may hold null, and then a product with a null alias is watched. */
  predicate Watched(aliases: seq<Option<string>>, alias: Option<string>)
  {
    alias in aliases
  }

  /** Watched, as the condition of a stream filter. */
  function WatchedBy(aliases: seq<Option<string>>): Product -> bool
  {
    (p: Product) => Watched(aliases, p.alias)
  }

  /** The products whose alias is in the watched list. */
  function FilterByAliases(ps: seq<Product>, aliases: seq<Option<string>>): (r: seq<Product>)
    ensures |r| <= |ps|
    ensures forall p :: p in r <==> p in ps && Watched(aliases, p.alias)
  {
    FilterMembers(ps, WatchedBy(aliases));
    Filter(ps, WatchedBy(aliases))
  }

  /** With a non-null, non-empty alias list only the watched products are kept;
      otherwise all of them. */
  function SelectProducts(all: seq<Product>, productAliases: Option<seq<Option<string>>>): (r: seq<Product>)
    ensures productAliases.None? || productAliases.value == [] ==> r == all
    ensures productAliases.Some? && productAliases.value != [] ==>
      forall p :: p in r <==> p in all && Watched(productAliases.value, p.alias)
  {
    if productAliases.Some? && productAliases.value != [] then FilterByAliases(all, productAliases.value) else all
  }

  /** The selection keeps the API's order and every occurrence: selecting from
      a list with one more product appends that product exactly when it is
      watched (or nothing is filtered), and selecting from concatenated lists
      concatenates the selections. */
  lemma SelectInOrder(all: seq<Product>, more: seq<Product>, p: Product, productAliases: Option<seq<Option<string>>>)
    ensures SelectProducts([], productAliases) == []
    ensures SelectProducts(all + [p], productAliases)
      == SelectProducts(all, productAliases)
         + (if productAliases.None? || productAliases.value == [] || Watched(productAliases.value, p.alias) then [p] else [])
    ensures SelectProducts(all + more, productAliases) == SelectProducts(all, productAliases) + SelectProducts(more, productAliases)
  {
    if productAliases.Some? && productAliases.value != [] {
      FilterSnoc(all, p, WatchedBy(productAliases.value));
      FilterAppend(all, more, WatchedBy(productAliases.value));
    }
  }

  // ---------------------------------------------------------------------------
  // fetchStockDataFromApi

  /** fetchStockDataFromApi on one reply. Every failure is a
      StockExtractionException: those the method raises itself pass through,
      anything else is wrapped as an unexpected error. */
  function FetchStockDataFromApi(reply: HttpReply, productAliases: Option<seq<Option<string>>>): (r: Result<seq<Product>>)
    ensures r.Err? ==> r.error.cls == StockExtractionException
    ensures r.Ok? ==> reply.Responded? && reply.status == 200
    ensures r.Ok? ==> reply.body.Some? && !IsBlank(reply.body.value)
    ensures r.Ok? ==> reply.parsed.ApiResponse? && reply.parsed.data.Some?
    ensures reply.Responded? && reply.status != 200 ==> r == Err(StatusError(reply.status, reply.reasonPhrase))
  {
    match reply
    case ClientFailed(e) =>
      if e.cls == StockExtractionException then Err(e) else Err(Extraction(UnexpectedErrorMessage, CausedBy(e)))
    case Responded(status, reasonPhrase, body, parsed) =>
      if status != 200 then Err(StatusError(status, reasonPhrase))
      else if body.None? || IsBlank(body.value) then Err(Extraction(EmptyResponseMessage, NoCause))
      else match parsed
        case Unparseable(reason) =>
          Err(Extraction(ParseFailureMessage,
                         CausedBy(Exc(OtherException("com.fasterxml.jackson.core.JsonParseException", "JsonParseException"),
                                      reason, NoCause))))
        case NullResponse => Err(Extraction(InvalidStructureMessage, NoCause))
        case ApiResponse(data) =>
          if data.None? then Err(Extraction(InvalidStructureMessage, NoCause))
          else
            var all := TransformAll(data.value);
            if all.None? then Err(Extraction(UnexpectedErrorMessage, CausedBy(NullElementError)))
            else Ok(SelectProducts(all.value, productAliases))
  }

  /** A 200 reply whose body is null or blank fails with the empty-response
      error, whatever the parser would make of it. */
  lemma BlankBodyFails(body: Option<string>, parsed: ParsedBody, productAliases: Option<seq<Option<string>>>)
    requires body.None? || IsBlank(body.value)
    ensures FetchStockDataFromApi(Responded(200, "OK", body, parsed), productAliases)
            == Err(Extraction(EmptyResponseMessage, NoCause))
  {
  }

  /** A well-formed 200 reply yields its products, mapped and filtered. */
  lemma WellFormedReply(body: string, data: seq<ApiProduct>, productAliases: Option<seq<Option<string>>>)
    requires !IsBlank(body)
    ensures var items := seq(|data|, i requires 0 <= i < |data| => Some(data[i]));
      var all := seq(|data|, i requires 0 <= i < |data| => TransformToProduct(data[i]));
      FetchStockDataFromApi(Responded(200, "OK", Some(body), ApiResponse(Some(items))), productAliases)
        == Ok(SelectProducts(all, productAliases))
  {
    var items := seq(|data|, i requires 0 <= i < |data| => Some(data[i]));
    var all := seq(|data|, i requires 0 <= i < |data| => TransformToProduct(data[i]));
    assert TransformAll(items).value == all;
  }

  // ---------------------------------------------------------------------------
  // Retry classification of the status errors

  /** A server error, wrapped in the RuntimeException the retried lambda throws,
      is retried: its message says the failure may be temporary. */
  lemma ServerErrorRetryable(status: int, reasonPhrase: string)
    requires status >= 500
    ensures IsRetryableException(WrapInRuntime(StatusError(status, reasonPhrase)))
  {
    assert Lower("temporary") == TemporaryKeywords[0];
    WrappedKeywordRetryable(StatusError(status, reasonPhrase), "temporary");
  }

  /** A 429 reply, wrapped, is retried: its message names the status code. */
  lemma RateLimitRetryable(reasonPhrase: string)
    ensures IsRetryableException(WrapInRuntime(StatusError(429, reasonPhrase)))
  {
    assert Lower("status 429") == RateLimitKeywords[2];
    WrappedKeywordRetryable(StatusError(429, reasonPhrase), "status 429");
  }

  // ---------------------------------------------------------------------------
  // checkStock

  const FetchOperationName: string := "Amul API stock fetch"
  const RetryFailedMessage: string := "Failed to fetch stock data after retries"

  /** Attempt j of the retried fetch sees the reply replies(j). */
  function FetchAttempt(productAliases: Option<seq<Option<string>>>, replies: nat -> HttpReply): ((), nat) -> Step<(), seq<Product>>
  {
    (w: (), j: nat) => Step(WrapFailure(FetchStockDataFromApi(replies(j), productAliases)), ())
  }

  function FetchRun(productAliases: Option<seq<Option<string>>>, replies: nat -> HttpReply, interrupted: nat -> bool)
    : RetryRun<(), seq<Product>>
  {
    Retry(ForApiCalls(), FetchOperationName, FetchAttempt(productAliases, replies), interrupted, ())
  }

  lemma FetchFailuresWrapped(productAliases: Option<seq<Option<string>>>, replies: nat -> HttpReply)
    ensures forall w: (), j: nat :: FetchAttempt(productAliases, replies)(w, j).outcome.Err? ==>
      WrapsA(FetchAttempt(productAliases, replies)(w, j).outcome.error, StockExtractionException)
  {
    forall w: (), j: nat
      ensures FetchAttempt(productAliases, replies)(w, j).outcome.Err? ==>
        WrapsA(FetchAttempt(productAliases, replies)(w, j).outcome.error, StockExtractionException)
    {
      assert FetchAttempt(productAliases, replies)(w, j).outcome
          == WrapFailure(FetchStockDataFromApi(replies(j), productAliases));
    }
  }

  /** A failed fetch run threw the interruption error, or the exhausted-attempts
      error caused by the wrapped failure of its last attempt. */
  lemma FetchRunFailure(productAliases: Option<seq<Option<string>>>, replies: nat -> HttpReply, interrupted: nat -> bool)
    ensures var run := FetchRun(productAliases, replies, interrupted);
      run.result.Err? ==>
        || run.result == Err(InterruptedError)
        || (|run.attempts| >= 1 && run.attempts[|run.attempts| - 1].Err?
            && WrapsA(run.attempts[|run.attempts| - 1].error, StockExtractionException)
            && run.result.error == ExhaustedError(ForApiCalls(), FetchOperationName, CausedBy(run.attempts[|run.attempts| - 1].error)))
  {
    FetchFailuresWrapped(productAliases, replies);
    RetryFailureWrapped(ForApiCalls(), FetchOperationName, FetchAttempt(productAliases, replies), interrupted, (), StockExtractionException);
  }

  /** checkStock as written: the failure it catches is the executor's exception,
      whose cause is the RuntimeException wrapper (or the InterruptedException),
      never a StockExtractionException, so the original failure is always
      wrapped again under a generic message. */
  function CheckStockAsWritten(productAliases: Option<seq<Option<string>>>, replies: nat -> HttpReply,
                               interrupted: nat -> bool): (r: Result<seq<Product>>)
    ensures var run := FetchRun(productAliases, replies, interrupted);
      r.Err? ==> run.result.Err? && r.error == Extraction(RetryFailedMessage, CausedBy(run.result.error))
  {
    var run := FetchRun(productAliases, replies, interrupted);
    FetchRunFailure(productAliases, replies, interrupted);
    match run.result
    case Ok(ps) => Ok(ps)
    case Err(e) =>
      match e.cause
      case CausedBy(c) =>
        if c.cls == StockExtractionException then Err(c) else Err(Extraction(RetryFailedMessage, CausedBy(e)))
      case NoCause => Err(Extraction(RetryFailedMessage, CausedBy(e)))
  }

  /** checkStock with the cause unwrapped through the executor's exception and
      the RuntimeException wrapper: the StockExtractionException of the last
      attempt reaches the caller; an interruption is reported under the generic
      message. */
  function CheckStock(productAliases: Option<seq<Option<string>>>, replies: nat -> HttpReply,
                      interrupted: nat -> bool): (r: Result<seq<Product>>)
    ensures r.Err? ==> r.error.cls == StockExtractionException
    ensures var run := FetchRun(productAliases, replies, interrupted);
      run.result == Err(InterruptedError) ==> r == Err(Extraction(RetryFailedMessage, CausedBy(InterruptedError)))
    ensures var run := FetchRun(productAliases, replies, interrupted);
      run.result.Err? && run.result != Err(InterruptedError) ==>
        r.Err? && run.attempts[|run.attempts| - 1] == Err(WrapInRuntime(r.error))
    ensures r.Ok? ==> exists j: nat :: FetchStockDataFromApi(replies(j), productAliases) == r
  {
    var run := FetchRun(productAliases, replies, interrupted);
    FetchRunFailure(productAliases, replies, interrupted);
    FetchSuccess(productAliases, replies, interrupted);
    match run.result
    case Ok(ps) => Ok(ps)
    case Err(e) =>
      if e.cause.CausedBy? && e.cause.exc.cause.CausedBy? && e.cause.exc.cause.exc.cls == StockExtractionException then
        Err(e.cause.exc.cause.exc)
      else Err(Extraction(RetryFailedMessage, CausedBy(e)))
  }

  /** The products checkStock returns are those some attempt's fetch returned. */
  lemma FetchSuccess(productAliases: Option<seq<Option<string>>>, replies: nat -> HttpReply, interrupted: nat -> bool)
    ensures var run := FetchRun(productAliases, replies, interrupted);
      run.result.Ok? ==> exists j: nat :: FetchStockDataFromApi(replies(j), productAliases) == run.result
  {
    var op := FetchAttempt(productAliases, replies);
    var good := (w: (), v: seq<Product>) => exists j: nat :: FetchStockDataFromApi(replies(j), productAliases) == Ok(v);
    forall w: (), j: nat | op(w, j).outcome.Ok?
      ensures good(op(w, j).world, op(w, j).outcome.value)
    {
      assert op(w, j).outcome == WrapFailure(FetchStockDataFromApi(replies(j), productAliases));
    }
    RetrySuccessFromOp(ForApiCalls(), FetchOperationName, op, interrupted, (), good);
  }

  /** checkStock as written and corrected agree on whether the fetch succeeded
      and, when it did, on the products; they differ only in the exception a
      failure carries. */
  lemma CheckStockAgreesWithAsWritten(productAliases: Option<seq<Option<string>>>, replies: nat -> HttpReply,
                                      interrupted: nat -> bool)
    ensures CheckStock(productAliases, replies, interrupted).Ok? <==> CheckStockAsWritten(productAliases, replies, interrupted).Ok?
    ensures CheckStock(productAliases, replies, interrupted).Ok? ==>
      CheckStock(productAliases, replies, interrupted) == CheckStockAsWritten(productAliases, replies, interrupted)
  {
  }

  /** The discrepancy: when every attempt gets a 503, the caller of checkStock
      as written receives the generic retry failure, while the server error the
      catch block means to preserve is what the corrected checkStock rethrows. */
  lemma ServerErrorNotPreserved(productAliases: Option<seq<Option<string>>>, reasonPhrase: string)
    ensures var replies := (j: nat) => Responded(503, reasonPhrase, None, NullResponse);
      var noInterrupt := (j: nat) => false;
      && CheckStockAsWritten(productAliases, replies, noInterrupt).Err?
      && CheckStockAsWritten(productAliases, replies, noInterrupt).error.message == RetryFailedMessage
      && CheckStock(productAliases, replies, noInterrupt) == Err(StatusError(503, reasonPhrase))
  {
    var replies := (j: nat) => Responded(503, reasonPhrase, None, NullResponse);
    var noInterrupt := (j: nat) => false;
    var op := FetchAttempt(productAliases, replies);
    var e := StatusError(503, reasonPhrase);
    var bad := (c: Exc) => c == WrapInRuntime(e);
    forall w: (), j: nat
      ensures op(w, j).outcome == Err(WrapInRuntime(e))
    {
      assert op(w, j).outcome == WrapFailure(FetchStockDataFromApi(replies(j), productAliases));
    }
    RetrySuccessFromOp(ForApiCalls(), FetchOperationName, op, noInterrupt, (), (w: (), v: seq<Product>) => false);
    RetryFailure(ForApiCalls(), FetchOperationName, op, noInterrupt, (), bad);
  }
}
