/**
 * The inbound rule triggers, which block mail from an address or a domain:
 * listing them with a fixed count and offset, creating one from a rule, and
 * deleting one by id.
 */
module InboundRuleTriggers {
  import opened Wrappers
  import opened GoStrings
  import opened UrlValues
  import opened Helpers
  import opened Postmark
  import opened Paging

  const TriggersPath: GoString := Lit("triggers/inboundrules")

  /** `InboundRuleTrigger`. */
  datatype InboundRuleTrigger = InboundRuleTrigger(id: int, rule: GoString)

  const ZeroTrigger: InboundRuleTrigger := InboundRuleTrigger(0, [])

  /** `InboundRuleTriggerCreateRequest`: the body of a create, the rule alone. */
  datatype CreateRequest = CreateRequest(rule: GoString)

  /** `GetInboundRuleTriggers`: GET `triggers/inboundrules?count=C&offset=O`. */
  method GetInboundRuleTriggers(c: Client, count: int, offset: int, json: Json<(), Page<InboundRuleTrigger>>)
    returns (triggers: seq<InboundRuleTrigger>, total: int, err: Option<Error>)
    modifies c.http
    ensures c.Answered(RequestSpec(MethodGet, TriggersPath + [Question] + PagingText(count, offset), None, ServerTokenType),
                       Page(0, []), json, Page(total, triggers), err)
  {
    var values := BuildPagingQuery(count, offset);
    PagingPath(TriggersPath, count, offset);
    var dst := new Destination(Page(0, []));
    err := c.Get(BuildURLWithQuery(TriggersPath, values), dst, json);
    triggers, total := dst.value.items, dst.value.totalCount;
    assert dst.value == Page(total, triggers);
  }

  /** `CreateInboundRuleTrigger`: POST `{"Rule": rule}` to `triggers/inboundrules`. */
  method CreateInboundRuleTrigger(c: Client, rule: GoString, json: Json<CreateRequest, InboundRuleTrigger>)
    returns (res: InboundRuleTrigger, err: Option<Error>)
    modifies c.http
    ensures c.Answered(RequestSpec(MethodPost, TriggersPath, Some(CreateRequest(rule)), ServerTokenType), ZeroTrigger, json, res, err)
  {
    var requestData := CreateRequest(rule);
    var dst := new Destination(ZeroTrigger);
    err := c.Post(TriggersPath, Some(requestData), dst, json);
    res := dst.value;
  }

  /** `DeleteInboundRuleTrigger`: DELETE `triggers/inboundrules/<id>`; the dispatcher's error first, then a non-zero code. */
  method DeleteInboundRuleTrigger(c: Client, triggerID: int, json: Json<(), APIError>) returns (err: Option<Error>)
    modifies c.http
    ensures c.ResolvedDispatcherFirst(RequestSpec(MethodDelete, TriggersPath + [Slash] + Decimal(triggerID), None, ServerTokenType), json, err)
  {
    var dst := new Destination(ZeroAPIError);
    var e := c.Delete(TriggersPath + [Slash] + Decimal(triggerID), dst, json);
    if e.Some? {
      return e;
    }
    if dst.value.errorCode != 0 {
      return Some(API(dst.value));
    }
    return None;
  }
}
