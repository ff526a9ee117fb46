/**
 * The domain operations of the account API, all with the account token:
 * listing, fetching, creating, editing and deleting domains, and the DKIM
 * and Return-Path checks and the DKIM rotation. The domain id goes into the
 * path as given; Domain records are a type parameter.
 */
module Domains {
  import opened Wrappers
  import opened GoStrings
  import opened UrlValues
  import opened Helpers
  import opened Postmark
  import opened Paging

  const DomainsPath: GoString := Lit("domains")

  /** `DomainCreateRequest`. */
  datatype DomainCreateRequest = DomainCreateRequest(name: GoString, returnPathDomain: GoString)

  /** `DomainEditRequest`. */
  datatype DomainEditRequest = DomainEditRequest(returnPathDomain: GoString)

  function DomainPath(domainID: GoString): GoString {
    DomainsPath + [Slash] + domainID
  }

  /** `GetDomains`: GET `domains?count=C&offset=O` (the "?" written by the caller, the query by `Encode`). */
  method GetDomains<D>(c: Client, count: int, offset: int, json: Json<(), Page<D>>) returns (res: Page<D>, err: Option<Error>)
    modifies c.http
    ensures c.Answered(RequestSpec(MethodGet, DomainsPath + [Question] + PagingText(count, offset), None, AccountTokenType),
                       Page(0, []), json, res, err)
  {
    var values := BuildPagingQuery(count, offset);
    PagingQueryEncodes(count, offset);
    var dst := new Destination(Page(0, []));
    err := c.DoRequest(RequestSpec(MethodGet, DomainsPath + [Question] + Encode(values), None, AccountTokenType), dst, json);
    res := dst.value;
  }

  /** `GetDomain`: GET `domains/<id>`. */
  method GetDomain<D>(c: Client, domainID: GoString, zero: D, json: Json<(), D>) returns (res: D, err: Option<Error>)
    modifies c.http
    ensures c.Answered(RequestSpec(MethodGet, DomainPath(domainID), None, AccountTokenType), zero, json, res, err)
  {
    var dst := new Destination(zero);
    err := c.DoRequest(RequestSpec(MethodGet, DomainPath(domainID), None, AccountTokenType), dst, json);
    res := dst.value;
  }

  /** `EditDomain`: PUT the request to `domains/<id>`. */
  method EditDomain<D>(c: Client, domainID: GoString, request: DomainEditRequest, zero: D, json: Json<DomainEditRequest, D>)
    returns (res: D, err: Option<Error>)
    modifies c.http
    ensures c.Answered(RequestSpec(MethodPut, DomainPath(domainID), Some(request), AccountTokenType), zero, json, res, err)
  {
    var dst := new Destination(zero);
    err := c.DoRequest(RequestSpec(MethodPut, DomainPath(domainID), Some(request), AccountTokenType), dst, json);
    res := dst.value;
  }

  /** `CreateDomain`: POST the request to `domains`. */
  method CreateDomain<D>(c: Client, request: DomainCreateRequest, zero: D, json: Json<DomainCreateRequest, D>)
    returns (res: D, err: Option<Error>)
    modifies c.http
    ensures c.Answered(RequestSpec(MethodPost, DomainsPath, Some(request), AccountTokenType), zero, json, res, err)
  {
    var dst := new Destination(zero);
    err := c.DoRequest(RequestSpec(MethodPost, DomainsPath, Some(request), AccountTokenType), dst, json);
    res := dst.value;
  }

  /** `DeleteDomain`: DELETE `domains/<id>`; a non-zero decoded code wins over the dispatcher's error. */
  method DeleteDomain(c: Client, domainID: GoString, json: Json<(), APIError>) returns (err: Option<Error>)
    modifies c.http
    ensures c.ResolvedCodeFirst(RequestSpec(MethodDelete, DomainPath(domainID), None, AccountTokenType), json, err)
  {
    var dst := new Destination(ZeroAPIError);
    var e := c.DoRequest(RequestSpec(MethodDelete, DomainPath(domainID), None, AccountTokenType), dst, json);
    if dst.value.errorCode != 0 {
      return Some(API(dst.value));
    }
    return e;
  }

  /** `VerifyDKIMStatus`: PUT `domains/<id>/verifyDkim` with no body. */
  method VerifyDKIMStatus<D>(c: Client, domainID: GoString, zero: D, json: Json<(), D>) returns (res: D, err: Option<Error>)
    modifies c.http
    ensures c.Answered(RequestSpec(MethodPut, DomainPath(domainID) + Lit("/verifyDkim"), None, AccountTokenType), zero, json, res, err)
  {
    var dst := new Destination(zero);
    err := c.DoRequest(RequestSpec(MethodPut, DomainPath(domainID) + Lit("/verifyDkim"), None, AccountTokenType), dst, json);
    res := dst.value;
  }

  /** `VerifyReturnPath`: PUT `domains/<id>/verifyReturnPath` with no body. */
  method VerifyReturnPath<D>(c: Client, domainID: GoString, zero: D, json: Json<(), D>) returns (res: D, err: Option<Error>)
    modifies c.http
    ensures c.Answered(RequestSpec(MethodPut, DomainPath(domainID) + Lit("/verifyReturnPath"), None, AccountTokenType), zero, json, res, err)
  {
    var dst := new Destination(zero);
    err := c.DoRequest(RequestSpec(MethodPut, DomainPath(domainID) + Lit("/verifyReturnPath"), None, AccountTokenType), dst, json);
    res := dst.value;
  }

  /** `RotateDKIM`: POST `domains/<id>/rotatedkim` with no body. */
  method RotateDKIM<D>(c: Client, domainID: GoString, zero: D, json: Json<(), D>) returns (res: D, err: Option<Error>)
    modifies c.http
    ensures c.Answered(RequestSpec(MethodPost, DomainPath(domainID) + Lit("/rotatedkim"), None, AccountTokenType), zero, json, res, err)
  {
    var dst := new Destination(zero);
    err := c.DoRequest(RequestSpec(MethodPost, DomainPath(domainID) + Lit("/rotatedkim"), None, AccountTokenType), dst, json);
    res := dst.value;
  }
}
