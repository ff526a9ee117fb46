/**
 * The outbound message operations: one message's details and raw dump, and
 * the listings of messages, opens and clicks, either with the caller's
 * options or, for one message, with a fixed count and offset. The message
 * id goes into the path as given. Message, open and click records are type
 * parameters.
 */
module OutboundMessages {
  import opened Wrappers
  import opened GoStrings
  import opened UrlValues
  import opened Helpers
  import opened Postmark
  import opened Paging
  import opened Bounces

  const OutboundPath: GoString := Lit("messages/outbound")
  const OpensPath: GoString := Lit("messages/outbound/opens")
  const ClicksPath: GoString := Lit("messages/outbound/clicks")

  lemma OutboundPathsPlain()
    ensures Question !in OutboundPath && Question !in OpensPath && Question !in ClicksPath
  {
    LitHasNoQuestion("messages/outbound");
    LitHasNoQuestion("messages/outbound/opens");
    LitHasNoQuestion("messages/outbound/clicks");
  }

  /** `GetOutboundMessage`: GET `messages/outbound/<id>/details`. */
  method GetOutboundMessage<M>(c: Client, messageID: GoString, zero: M, json: Json<(), M>) returns (res: M, err: Option<Error>)
    modifies c.http
    ensures c.Answered(RequestSpec(MethodGet, OutboundPath + [Slash] + messageID + Lit("/details"), None, ServerTokenType), zero, json, res, err)
  {
    var dst := new Destination(zero);
    err := c.Get(OutboundPath + [Slash] + messageID + Lit("/details"), dst, json);
    res := dst.value;
  }

  /** `GetOutboundMessageDump`: GET `messages/outbound/<id>/dump`, returning the dump's body (empty when none). */
  method GetOutboundMessageDump(c: Client, messageID: GoString, json: Json<(), DumpResponse>) returns (body: GoString, err: Option<Error>)
    modifies c.http
    ensures c.Answered(RequestSpec(MethodGet, OutboundPath + [Slash] + messageID + Lit("/dump"), None, ServerTokenType),
                       ZeroDump, json, DumpResponse(body), err)
  {
    var dst := new Destination(ZeroDump);
    err := c.Get(OutboundPath + [Slash] + messageID + Lit("/dump"), dst, json);
    body := dst.value.body;
  }

  /** `GetOutboundMessages`: count and offset go into the caller's options, and GET `messages/outbound` with all of them. */
  method GetOutboundMessages<M>(c: Client, count: int, offset: int, options: OptionsMap?, json: Json<(), Page<M>>)
    returns (messages: seq<M>, total: int, err: Option<Error>)
    modifies c.http, options
    ensures options != null ==> options.entries == WithPaging(old(options.entries), count, offset)
    ensures c.Answered(PagedListing(OutboundPath, old(EntriesOf(options)), count, offset), Page(0, []), json, Page(total, messages), err)
  {
    var m := InjectPaging(options, count, offset);
    var url := BuildURL(OutboundPath, Some(m.entries));
    var dst := new Destination(Page(0, []));
    err := c.Get(url, dst, json);
    messages, total := dst.value.items, dst.value.totalCount;
    assert dst.value == Page(total, messages);
  }

  /** `GetOutboundMessagesOpens`: the opens listing with the caller's options. */
  method GetOutboundMessagesOpens<O>(c: Client, count: int, offset: int, options: OptionsMap?, json: Json<(), Page<O>>)
    returns (opens: seq<O>, total: int, err: Option<Error>)
    modifies c.http, options
    ensures options != null ==> options.entries == WithPaging(old(options.entries), count, offset)
    ensures c.Answered(PagedListing(OpensPath, old(EntriesOf(options)), count, offset), Page(0, []), json, Page(total, opens), err)
  {
    var m := InjectPaging(options, count, offset);
    var url := BuildURL(OpensPath, Some(m.entries));
    var dst := new Destination(Page(0, []));
    err := c.Get(url, dst, json);
    opens, total := dst.value.items, dst.value.totalCount;
    assert dst.value == Page(total, opens);
  }

  /** `GetOutboundMessageOpens`: GET `messages/outbound/opens/<id>` with only count and offset. */
  method GetOutboundMessageOpens<O>(c: Client, messageID: GoString, count: int, offset: int, json: Json<(), Page<O>>)
    returns (opens: seq<O>, total: int, err: Option<Error>)
    modifies c.http
    ensures c.Answered(RequestSpec(MethodGet, OpensPath + [Slash] + messageID + [Question] + PagingText(count, offset), None, ServerTokenType),
                       Page(0, []), json, Page(total, opens), err)
  {
    var values := BuildPagingQuery(count, offset);
    PagingPath(OpensPath + [Slash] + messageID, count, offset);
    var dst := new Destination(Page(0, []));
    err := c.Get(BuildURLWithQuery(OpensPath + [Slash] + messageID, values), dst, json);
    opens, total := dst.value.items, dst.value.totalCount;
    assert dst.value == Page(total, opens);
  }

  /** `GetOutboundMessagesClicks`: the clicks listing with the caller's options. */
  method GetOutboundMessagesClicks<K>(c: Client, count: int, offset: int, options: OptionsMap?, json: Json<(), Page<K>>)
    returns (clicks: seq<K>, total: int, err: Option<Error>)
    modifies c.http, options
    ensures options != null ==> options.entries == WithPaging(old(options.entries), count, offset)
    ensures c.Answered(PagedListing(ClicksPath, old(EntriesOf(options)), count, offset), Page(0, []), json, Page(total, clicks), err)
  {
    var m := InjectPaging(options, count, offset);
    var url := BuildURL(ClicksPath, Some(m.entries));
    var dst := new Destination(Page(0, []));
    err := c.Get(url, dst, json);
    clicks, total := dst.value.items, dst.value.totalCount;
    assert dst.value == Page(total, clicks);
  }

  /** `GetOutboundMessageClicks`: GET `messages/outbound/clicks/<id>` with only count and offset. */
  method GetOutboundMessageClicks<K>(c: Client, messageID: GoString, count: int, offset: int, json: Json<(), Page<K>>)
    returns (clicks: seq<K>, total: int, err: Option<Error>)
    modifies c.http
    ensures c.Answered(RequestSpec(MethodGet, ClicksPath + [Slash] + messageID + [Question] + PagingText(count, offset), None, ServerTokenType),
                       Page(0, []), json, Page(total, clicks), err)
  {
    var values := BuildPagingQuery(count, offset);
    PagingPath(ClicksPath + [Slash] + messageID, count, offset);
    var dst := new Destination(Page(0, []));
    err := c.Get(BuildURLWithQuery(ClicksPath + [Slash] + messageID, values), dst, json);
    clicks, total := dst.value.items, dst.value.totalCount;
    assert dst.value == Page(total, clicks);
  }
}
