/** The Express error middleware of `middleware/errorHandler.js`: the Mongoose and JWT error
    kinds are rewritten by message builders, ledger and connection failures get their status
    codes, and in production only operational errors show their message.

    As written, every builder returns a plain `Error`, which is not operational, so in
    production its message is never shown: the answer is 500 with the generic message. The
    corrected revision makes each builder's error operational with the status its kind calls
    for (400 for the database kinds, 401 for the token kinds). `ErrorHandler` takes the revision
    as a parameter and answers under either. */
module ErrorHandling {
  import opened Base
  import opened BlockchainService

  /** The error handed to the middleware. An absent message is the empty string, an absent
      status `None`; `path`/`value`, `keyValue` (in key order) and `errors` (the validation
      messages, in order) are the fields the builders read. */
  datatype IncomingError = IncomingError(
    name: string, code: Option<int>, message: string,
    statusCode: Option<int>, isOperational: bool,
    path: string, value: string, keyValue: seq<(string, string)>, errors: seq<string>)

  /** The local `error` the middleware rewrites and finally sends. */
  datatype ErrorObj = ErrorObj(message: string, statusCode: Option<int>, isOperational: bool)

  /** The HTTP answer: status and message. */
  datatype Response = Response(status: int, message: string)

  /** Whether the builders make operational errors. */
  datatype Revision = AsWritten | Corrected

  const BLOCKCHAIN_MARK: string := "Error en blockchain"
  const CONNECTION_MARK: string := "connection"
  const CONNECTION_MESSAGE: string := "Error de conexión con blockchain. Intenta más tarde."
  const GENERIC_MESSAGE: string := "Algo salió mal!"
  const JWT_MESSAGE: string := "Token inválido. Por favor inicia sesión de nuevo."
  const JWT_EXPIRED_MESSAGE: string := "Token expirado. Por favor inicia sesión de nuevo."
  const VALIDATION_PREFIX: string := "Datos inválidos: "

  // ---------------------------------------------------------------------------------
  // The message builders

  function CastMessage(err: IncomingError): string
  {
    "Recurso inválido: " + err.path + ": " + err.value
  }

  /** Names the first key of `keyValue` and its value; both read `undefined` when there is
      no key. */
  function DuplicateMessage(keyValue: seq<(string, string)>): string
  {
    var field := if |keyValue| > 0 then keyValue[0].0 else "undefined";
    var value := if |keyValue| > 0 then keyValue[0].1 else "undefined";
    field + " duplicado: " + value + ". Por favor usa otro valor."
  }

  function ValidationMessage(errors: seq<string>): string
  {
    VALIDATION_PREFIX + Join(errors, ". ")
  }

  /** A builder's error: in the corrected revision, operational with the given status. */
  function Built(message: string, status: int, rev: Revision): (e: ErrorObj)
    ensures e.message == message
    ensures e.isOperational <==> rev == Corrected
    ensures rev == Corrected ==> e.statusCode == Some(status)
    ensures rev == AsWritten ==> e.statusCode.None?
  {
    if rev == Corrected then ErrorObj(message, Some(status), true) else ErrorObj(message, None, false)
  }

  function HandleCastErrorDB(err: IncomingError, rev: Revision): ErrorObj
  {
    Built(CastMessage(err), 400, rev)
  }

  function HandleDuplicateFieldsDB(err: IncomingError, rev: Revision): ErrorObj
  {
    Built(DuplicateMessage(err.keyValue), 400, rev)
  }

  function HandleValidationErrorDB(err: IncomingError, rev: Revision): ErrorObj
  {
    Built(ValidationMessage(err.errors), 400, rev)
  }

  function HandleJWTError(rev: Revision): ErrorObj
  {
    Built(JWT_MESSAGE, 401, rev)
  }

  function HandleJWTExpiredError(rev: Revision): ErrorObj
  {
    Built(JWT_EXPIRED_MESSAGE, 401, rev)
  }

  // ---------------------------------------------------------------------------------
  // Classification, as a priority: the last rule that applies wins

  datatype Kind = CastKind | DuplicateKind | ValidationKind | JwtKind | ExpiredKind

  /** The kind whose builder runs last: the rules are tried in order and each one that
      applies replaces the error. */
  function LastKind(err: IncomingError): Option<Kind>
  {
    if err.name == "TokenExpiredError" then Some(ExpiredKind)
    else if err.name == "JsonWebTokenError" then Some(JwtKind)
    else if err.name == "ValidationError" then Some(ValidationKind)
    else if err.code == Some(11000) then Some(DuplicateKind)
    else if err.name == "CastError" then Some(CastKind)
    else None
  }

  function KindError(err: IncomingError, k: Kind, rev: Revision): ErrorObj
  {
    match k
    case CastKind => HandleCastErrorDB(err, rev)
    case DuplicateKind => HandleDuplicateFieldsDB(err, rev)
    case ValidationKind => HandleValidationErrorDB(err, rev)
    case JwtKind => HandleJWTError(rev)
    case ExpiredKind => HandleJWTExpiredError(rev)
  }

  /** The error after the five kind rules: the last builder's error, or a copy of the
      incoming one. */
  function Rebuilt(err: IncomingError, rev: Revision): ErrorObj
  {
    match LastKind(err)
    case None => ErrorObj(err.message, err.statusCode, err.isOperational)
    case Some(k) => KindError(err, k, rev)
  }

  /** The error after all rules: a connection failure overrides everything, a ledger failure
      turns the rebuilt error into an operational 400. */
  function Classified(err: IncomingError, rev: Revision): ErrorObj
  {
    if Includes(err.message, CONNECTION_MARK) then
      Rebuilt(err, rev).(statusCode := Some(503), message := CONNECTION_MESSAGE, isOperational := true)
    else if Includes(err.message, BLOCKCHAIN_MARK) then
      Rebuilt(err, rev).(statusCode := Some(400), isOperational := true)
    else Rebuilt(err, rev)
  }

  /** `err.statusCode || 500`: a missing or zero status is 500. */
  function StatusOr500(s: Option<int>): (code: int)
    ensures s.None? || s.value == 0 ==> code == 500
    ensures s.Some? && s.value != 0 ==> code == s.value
  {
    if s.None? || s.value == 0 then 500 else s.value
  }

  /** `sendErrorDev` and `sendErrorProd`: in production a non-operational error is answered
      with 500 and the generic message. */
  function Respond(e: ErrorObj, development: bool): Response
  {
    if development || e.isOperational then Response(StatusOr500(e.statusCode), e.message)
    else Response(500, GENERIC_MESSAGE)
  }

  /** `errorHandler`, with the builders of revision `rev`: `AsWritten` is the handler as the
      source has it, `Corrected` the one whose builders mark their errors operational. */
  method ErrorHandler(err: IncomingError, development: bool, rev: Revision) returns (res: Response)
    ensures res == Respond(Classified(err, rev), development)
  {
    var error := ErrorObj(err.message, err.statusCode, err.isOperational);
    if err.name == "CastError" {
      error := HandleCastErrorDB(err, rev);
    }
    if err.code == Some(11000) {
      error := HandleDuplicateFieldsDB(err, rev);
    }
    if err.name == "ValidationError" {
      error := HandleValidationErrorDB(err, rev);
    }
    if err.name == "JsonWebTokenError" {
      error := HandleJWTError(rev);
    }
    if err.name == "TokenExpiredError" {
      error := HandleJWTExpiredError(rev);
    }
    if Includes(err.message, BLOCKCHAIN_MARK) {
      error := error.(statusCode := Some(400), isOperational := true);
    }
    if Includes(err.message, CONNECTION_MARK) {
      error := error.(statusCode := Some(503), message := CONNECTION_MESSAGE, isOperational := true);
    }
    if development || error.isOperational {
      res := Response(StatusOr500(error.statusCode), error.message);
    } else {
      res := Response(500, GENERIC_MESSAGE);
    }
  }

  // ---------------------------------------------------------------------------------
  // What the classification promises

  /** An error mentioning `connection` is always answered 503 with the fixed message, even
      when it is also a ledger failure. */
  lemma ConnectionOverrides(err: IncomingError, rev: Revision, development: bool)
    requires Includes(err.message, CONNECTION_MARK)
    ensures Respond(Classified(err, rev), development) == Response(503, CONNECTION_MESSAGE)
  {
  }

  /** A ledger failure that is not a connection failure is an operational 400 carrying the
      rebuilt error's message. */
  lemma LedgerFailureIs400(err: IncomingError, rev: Revision, development: bool)
    requires Includes(err.message, BLOCKCHAIN_MARK) && !Includes(err.message, CONNECTION_MARK)
    ensures Classified(err, rev).isOperational && Classified(err, rev).statusCode == Some(400)
    ensures Respond(Classified(err, rev), development) == Response(400, Rebuilt(err, rev).message)
  {
  }

  /** The adapter's wrapped ledger failure, reaching the middleware as a plain error, is
      answered 400 with its message in production. The adapter throws a plain `Error`, which
      has none of the Mongoose or JWT names or the 11000 code, so `LastKind(err).None?` holds
      for it; the `connection` exclusion is real (see `ConnectionOverrides`). */
  lemma WrappedLedgerFailureAnswered<T>(call: LedgerResult<T>, err: IncomingError)
    requires call.LedgerErr? && err.message == Wrap(call).cause
    requires LastKind(err).None? && !Includes(err.message, CONNECTION_MARK)
    ensures Respond(Classified(err, Corrected), false) == Response(400, Wrap(call).cause)
  {
    WrappedErrorIsClassified(call);
  }

  /** An error of none of the kinds and with neither mark goes through unchanged: shown
      with its own status (or 500) when operational, hidden behind 500 otherwise. */
  lemma PlainErrorPassesThrough(err: IncomingError, rev: Revision)
    requires LastKind(err).None?
    requires !Includes(err.message, CONNECTION_MARK) && !Includes(err.message, BLOCKCHAIN_MARK)
    ensures Classified(err, rev) == ErrorObj(err.message, err.statusCode, err.isOperational)
    ensures err.isOperational ==> Respond(Classified(err, rev), false) == Response(StatusOr500(err.statusCode), err.message)
    ensures !err.isOperational ==> Respond(Classified(err, rev), false) == Response(500, GENERIC_MESSAGE)
  {
  }

  /** As written, the builders' messages never reach a production client: an error of any
      of the five kinds without a mark is answered 500 with the generic message. */
  lemma BuilderMessagesHiddenAsWritten(err: IncomingError)
    requires LastKind(err).Some?
    requires !Includes(err.message, CONNECTION_MARK) && !Includes(err.message, BLOCKCHAIN_MARK)
    ensures Respond(Classified(err, AsWritten), false) == Response(500, GENERIC_MESSAGE)
  {
  }

  /** The input that shows it: a bad ObjectId in production (the driver's own message is
      immaterial as long as it names neither mark; here it is empty). */
  lemma CastErrorHiddenAsWritten()
    ensures var err := IncomingError("CastError", None, "", None, false, "_id", "abc", [], []);
      && Respond(Classified(err, AsWritten), false) == Response(500, GENERIC_MESSAGE)
      && Respond(Classified(err, Corrected), false) == Response(400, CastMessage(err))
  {
  }

  /** In the corrected revision the same errors are answered with their kind's status and
      the builder's message. */
  lemma BuilderMessagesShown(err: IncomingError)
    requires LastKind(err).Some?
    requires !Includes(err.message, CONNECTION_MARK) && !Includes(err.message, BLOCKCHAIN_MARK)
    ensures var k := LastKind(err).value;
      var status := if k == JwtKind || k == ExpiredKind then 401 else 400;
      Respond(Classified(err, Corrected), false) == Response(status, KindError(err, k, Corrected).message)
  {
  }

  /** The two revisions differ only in the builders' status and operational flag: every
      message is the same, and an error of none of the kinds is classified alike. */
  lemma RevisionsShareMessages(err: IncomingError)
    ensures Classified(err, AsWritten).message == Classified(err, Corrected).message
    ensures LastKind(err).None? ==> Classified(err, AsWritten) == Classified(err, Corrected)
  {
  }

  // ---------------------------------------------------------------------------------
  // The builders' messages

  /** The duplicate-key message starts with the first key and its value; with no key it
      reads as if the key `undefined` held the value `undefined`. */
  lemma DuplicateMessageNamesFirstKey(keyValue: seq<(string, string)>)
    ensures |keyValue| > 0 ==>
      StartsWith(DuplicateMessage(keyValue), keyValue[0].0 + " duplicado: " + keyValue[0].1)
    ensures |keyValue| == 0 ==> DuplicateMessage(keyValue) == DuplicateMessage([("undefined", "undefined")])
  {
    if |keyValue| > 0 {
      var p := keyValue[0].0 + " duplicado: " + keyValue[0].1;
      assert DuplicateMessage(keyValue) == p + ". Por favor usa otro valor.";
      assert DuplicateMessage(keyValue)[..|p|] == p;
    }
  }

  /** The validation message lists every field's message. */
  lemma ValidationMessageListsAll(errors: seq<string>, i: nat)
    requires i < |errors|
    ensures StartsWith(ValidationMessage(errors), VALIDATION_PREFIX)
    ensures Includes(ValidationMessage(errors), errors[i])
  {
    JoinIncludesEach(errors, ". ", i);
    IncludesSuffix(VALIDATION_PREFIX, Join(errors, ". "), errors[i]);
    assert ValidationMessage(errors)[..|VALIDATION_PREFIX|] == VALIDATION_PREFIX;
  }

  lemma {:induction false} JoinIncludesEach(parts: seq<string>, sep: string, i: nat)
    requires i < |parts|
    ensures Includes(Join(parts, sep), parts[i])
    decreases i
  {
    if |parts| == 1 {
      assert parts[0] == "" + parts[0] + "";
      IncludesAppend("", parts[0], "");
    } else if i == 0 {
      assert Join(parts, sep) == "" + parts[0] + (sep + Join(parts[1..], sep));
      IncludesAppend("", parts[0], sep + Join(parts[1..], sep));
    } else {
      JoinIncludesEach(parts[1..], sep, i - 1);
      assert Join(parts, sep) == (parts[0] + sep) + Join(parts[1..], sep);
      IncludesSuffix(parts[0] + sep, Join(parts[1..], sep), parts[i]);
    }
  }

  /** A string included in `b` is included in `a + b`. */
  lemma {:induction false} IncludesSuffix(a: string, b: string, sub: string)
    requires Includes(b, sub)
    ensures Includes(a + b, sub)
    decreases |a|
  {
    if |a| > 0 {
      assert (a + b)[1..] == a[1..] + b;
      IncludesSuffix(a[1..], b, sub);
    } else {
      assert a + b == b;
    }
  }
}
