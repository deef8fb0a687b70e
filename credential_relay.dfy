/**
 * The `/get_po_credentials` endpoint of api_server.py as a decision from the
 * store lookup to a response. The lookup is `get_encrypted_data_from_local_db`,
 * which either answers or raises.
 */
module CredentialRelay {
  import opened Wrappers
  import opened Strings
  import opened UserStore

  datatype CoreRequest = CoreRequest(userId: int, requestSource: string)

  /** The outcome of the store call: its answer, or a raised storage error. */
  datatype Lookup = Answered(pair: Option<(string, string)>) | StoreRaised

  datatype Response =
    | Success(userId: int, loginEnc: string, passwordEnc: string)
    | HttpError(status: int, detail: string)

  /** What can leave the `try` block. */
  datatype Raised = HttpException(status: int, detail: string) | OtherException

  datatype BodyResult = Returned(response: Response) | Threw(exc: Raised)

  /** The `try` block: the lookup, the 404 on no credentials, the success payload. */
  function TryBlock(req: CoreRequest, lookup: Lookup): BodyResult {
    match lookup
    case StoreRaised => Threw(OtherException)
    case Answered(None) =>
      Threw(HttpException(404, "Credentials not found for user " + DecimalString(req.userId)))
    case Answered(Some(pair)) => Returned(Success(req.userId, pair.0, pair.1))
  }

  /** The `except` clauses: an HTTP error is re-raised as it is, anything else becomes a 500. */
  function Handle(r: BodyResult): Response {
    match r
    case Returned(resp) => resp
    case Threw(HttpException(status, detail)) => HttpError(status, detail)
    case Threw(OtherException) => HttpError(500, "Internal database error")
  }

  function GetPoCredentials(req: CoreRequest, lookup: Lookup): (r: Response)
    ensures r.Success? <==> lookup.Answered? && lookup.pair.Some?
    ensures r.Success? ==> r.userId == req.userId && (r.loginEnc, r.passwordEnc) == lookup.pair.value
    ensures r.HttpError? && lookup.Answered? ==> r.status == 404
    ensures lookup.StoreRaised? ==> r == HttpError(500, "Internal database error")
  {
    Handle(TryBlock(req, lookup))
  }

  /** A 404 raised inside the `try` block reaches the caller as that same 404. */
  lemma NotFoundIsReraised(req: CoreRequest, lookup: Lookup)
    requires TryBlock(req, lookup).Threw? && TryBlock(req, lookup).exc.HttpException?
    ensures GetPoCredentials(req, lookup) == HttpError(404, TryBlock(req, lookup).exc.detail)
  {
  }

  /** The caller tag plays no part: there is no allow-list in this endpoint. */
  lemma SourceIgnored(userId: int, source1: string, source2: string, lookup: Lookup)
    ensures GetPoCredentials(CoreRequest(userId, source1), lookup)
         == GetPoCredentials(CoreRequest(userId, source2), lookup)
  {
  }

  /** Save-then-relay: the saved ciphertexts come back unchanged, never decrypted. */
  lemma SavedPairRelayed(row: Option<CredRow>, req: CoreRequest, loginEnc: string, passwordEnc: string)
    requires loginEnc != "" && passwordEnc != ""
    ensures GetPoCredentials(req, Answered(LoginPassword(Some(WithLoginPassword(row, loginEnc, passwordEnc)))))
         == Success(req.userId, loginEnc, passwordEnc)
  {
    SaveThenRead(row, loginEnc, passwordEnc);
  }

  /** A user with only an ssid saved is not found. */
  lemma SsidOnlyNotFound(req: CoreRequest, ssidEnc: string)
    ensures GetPoCredentials(req, Answered(LoginPassword(Some(WithSsid(None, ssidEnc))))).status == 404
  {
  }
}
