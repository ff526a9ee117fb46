/**
 * The bounce operations: listing bounces with the caller's options, fetching
 * one bounce, its SMTP dump and the tags that bounced, reactivating a
 * bounce, and the delivery statistics. Bounce records and the statistics
 * are type parameters with their Go zero value passed in.
 */
module Bounces {
  import opened Wrappers
  import opened GoStrings
  import opened UrlValues
  import opened Helpers
  import opened Postmark
  import opened Paging

  const BouncesPath: GoString := Lit("bounces")

  /** `dumpResponse`: the raw dump, empty when none is available. */
  datatype DumpResponse = DumpResponse(body: GoString)

  const ZeroDump: DumpResponse := DumpResponse([])

  /** `activateBounceResponse`: the server's message and the reactivated bounce. */
  datatype ActivateResponse<B> = ActivateResponse(message: GoString, bounce: B)

  lemma BouncesPathPlain()
    ensures Question !in BouncesPath
  {
    LitHasNoQuestion("bounces");
  }

  /** `GetDeliveryStats`: GET `deliverystats`. */
  method GetDeliveryStats<S>(c: Client, zero: S, json: Json<(), S>) returns (res: S, err: Option<Error>)
    modifies c.http
    ensures c.Answered(RequestSpec(MethodGet, Lit("deliverystats"), None, ServerTokenType), zero, json, res, err)
  {
    var dst := new Destination(zero);
    err := c.Get(Lit("deliverystats"), dst, json);
    res := dst.value;
  }

  /**
   * `GetBounces`: count and offset are written into the caller's options (a
   * nil map is replaced by a fresh one), and GET `bounces` with every option
   * in the query; the result is the decoded page of bounces and its total.
   */
  method GetBounces<B>(c: Client, count: int, offset: int, options: OptionsMap?, json: Json<(), Page<B>>)
    returns (bounces: seq<B>, total: int, err: Option<Error>)
    modifies c.http, options
    ensures options != null ==> options.entries == WithPaging(old(options.entries), count, offset)
    ensures c.Answered(PagedListing(BouncesPath, old(EntriesOf(options)), count, offset), Page(0, []), json, Page(total, bounces), err)
  {
    var m := InjectPaging(options, count, offset);
    var url := BuildURL(BouncesPath, Some(m.entries));
    var dst := new Destination(Page(0, []));
    err := c.Get(url, dst, json);
    bounces, total := dst.value.items, dst.value.totalCount;
    assert dst.value == Page(total, bounces);
  }

  /** `GetBounce`: GET `bounces/<id>`. */
  method GetBounce<B>(c: Client, bounceID: int, zero: B, json: Json<(), B>) returns (res: B, err: Option<Error>)
    modifies c.http
    ensures c.Answered(RequestSpec(MethodGet, Lit("bounces/") + Decimal(bounceID), None, ServerTokenType), zero, json, res, err)
  {
    var dst := new Destination(zero);
    err := c.Get(Lit("bounces/") + Decimal(bounceID), dst, json);
    res := dst.value;
  }

  /** `GetBounceDump`: GET `bounces/<id>/dump`, returning the dump's body. */
  method GetBounceDump(c: Client, bounceID: int, json: Json<(), DumpResponse>) returns (body: GoString, err: Option<Error>)
    modifies c.http
    ensures c.Answered(RequestSpec(MethodGet, Lit("bounces/") + Decimal(bounceID) + Lit("/dump"), None, ServerTokenType),
                       ZeroDump, json, DumpResponse(body), err)
  {
    var dst := new Destination(ZeroDump);
    err := c.Get(Lit("bounces/") + Decimal(bounceID) + Lit("/dump"), dst, json);
    body := dst.value.body;
  }

  /** `ActivateBounce`: PUT `bounces/<id>/activate` with no body, returning the bounce and the message. */
  method ActivateBounce<B>(c: Client, bounceID: int, zero: B, json: Json<(), ActivateResponse<B>>)
    returns (bounce: B, message: GoString, err: Option<Error>)
    modifies c.http
    ensures c.Answered(RequestSpec(MethodPut, Lit("bounces/") + Decimal(bounceID) + Lit("/activate"), None, ServerTokenType),
                       ActivateResponse([], zero), json, ActivateResponse(message, bounce), err)
  {
    var dst := new Destination(ActivateResponse([], zero));
    err := c.Put(Lit("bounces/") + Decimal(bounceID) + Lit("/activate"), None, dst, json);
    bounce, message := dst.value.bounce, dst.value.message;
    assert dst.value == ActivateResponse(message, bounce);
  }

  /** `GetBouncedTags`: GET `bounces/tags` into a nil slice. */
  method GetBouncedTags(c: Client, json: Json<(), seq<GoString>>) returns (tags: seq<GoString>, err: Option<Error>)
    modifies c.http
    ensures c.Answered(RequestSpec(MethodGet, Lit("bounces/tags"), None, ServerTokenType), [], json, tags, err)
  {
    var dst := new Destination([]);
    err := c.Get(Lit("bounces/tags"), dst, json);
    tags := dst.value;
  }
}
