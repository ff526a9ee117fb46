/**
 * The sender signature operations of the account API, all with the account
 * token: listing, fetching, creating, editing and deleting signatures, and
 * resending a signature's confirmation email. Signature records and the
 * request bodies are type parameters.
 */
module SenderSignatures {
  import opened Wrappers
  import opened GoStrings
  import opened UrlValues
  import opened Helpers
  import opened Postmark
  import opened Paging

  const SendersPath: GoString := Lit("senders")

  function SenderPath(signatureID: int): GoString {
    SendersPath + [Slash] + Decimal(signatureID)
  }

  /** `GetSenderSignatures`: GET `senders?count=C&offset=O`. */
  method GetSenderSignatures<S>(c: Client, count: int, offset: int, json: Json<(), Page<S>>) returns (res: Page<S>, err: Option<Error>)
    modifies c.http
    ensures c.Answered(RequestSpec(MethodGet, SendersPath + [Question] + PagingText(count, offset), None, AccountTokenType),
                       Page(0, []), json, res, err)
  {
    var values := BuildPagingQuery(count, offset);
    PagingQueryEncodes(count, offset);
    var dst := new Destination(Page(0, []));
    err := c.DoRequest(RequestSpec(MethodGet, SendersPath + [Question] + Encode(values), None, AccountTokenType), dst, json);
    res := dst.value;
  }

  /** `GetSenderSignature`: GET `senders/<id>`. */
  method GetSenderSignature<S>(c: Client, signatureID: int, zero: S, json: Json<(), S>) returns (res: S, err: Option<Error>)
    modifies c.http
    ensures c.Answered(RequestSpec(MethodGet, SenderPath(signatureID), None, AccountTokenType), zero, json, res, err)
  {
    var dst := new Destination(zero);
    err := c.DoRequest(RequestSpec(MethodGet, SenderPath(signatureID), None, AccountTokenType), dst, json);
    res := dst.value;
  }

  /** `CreateSenderSignature`: POST the request to `senders`. */
  method CreateSenderSignature<Q, S>(c: Client, request: Q, zero: S, json: Json<Q, S>) returns (res: S, err: Option<Error>)
    modifies c.http
    ensures c.Answered(RequestSpec(MethodPost, SendersPath, Some(request), AccountTokenType), zero, json, res, err)
  {
    var dst := new Destination(zero);
    err := c.DoRequest(RequestSpec(MethodPost, SendersPath, Some(request), AccountTokenType), dst, json);
    res := dst.value;
  }

  /** `EditSenderSignature`: PUT the request to `senders/<id>`. */
  method EditSenderSignature<Q, S>(c: Client, signatureID: int, request: Q, zero: S, json: Json<Q, S>) returns (res: S, err: Option<Error>)
    modifies c.http
    ensures c.Answered(RequestSpec(MethodPut, SenderPath(signatureID), Some(request), AccountTokenType), zero, json, res, err)
  {
    var dst := new Destination(zero);
    err := c.DoRequest(RequestSpec(MethodPut, SenderPath(signatureID), Some(request), AccountTokenType), dst, json);
    res := dst.value;
  }

  /** `DeleteSenderSignature`: DELETE `senders/<id>`; a non-zero decoded code wins over the dispatcher's error. */
  method DeleteSenderSignature(c: Client, signatureID: int, json: Json<(), APIError>) returns (err: Option<Error>)
    modifies c.http
    ensures c.ResolvedCodeFirst(RequestSpec(MethodDelete, SenderPath(signatureID), None, AccountTokenType), json, err)
  {
    var dst := new Destination(ZeroAPIError);
    var e := c.DoRequest(RequestSpec(MethodDelete, SenderPath(signatureID), None, AccountTokenType), dst, json);
    if dst.value.errorCode != 0 {
      return Some(API(dst.value));
    }
    return e;
  }

  /** `ResendSenderSignatureConfirmation`: POST `senders/<id>/resend` with no body; the code first, as for a delete. */
  method ResendSenderSignatureConfirmation(c: Client, signatureID: int, json: Json<(), APIError>) returns (err: Option<Error>)
    modifies c.http
    ensures c.ResolvedCodeFirst(RequestSpec(MethodPost, SenderPath(signatureID) + Lit("/resend"), None, AccountTokenType), json, err)
  {
    var dst := new Destination(ZeroAPIError);
    var e := c.DoRequest(RequestSpec(MethodPost, SenderPath(signatureID) + Lit("/resend"), None, AccountTokenType), dst, json);
    if dst.value.errorCode != 0 {
      return Some(API(dst.value));
    }
    return e;
  }
}
