/**
 * The template operations: fetching, listing, creating, editing, deleting,
 * validating and pushing templates, and sending mail through them, with the
 * alias check that guards against header injection. Template records and
 * the server's responses are type parameters with their Go zero value
 * passed in; only the fields the client itself inspects are spelled out.
 */
module Templates {
  import opened Wrappers
  import opened GoStrings
  import opened UrlValues
  import opened Helpers
  import opened Postmark

  // ---------------------------------------------------------------------
  // Header-injection guard
  // ---------------------------------------------------------------------

  /** `validateTemplateAlias`: an alias holding a carriage return or a line feed is refused. */
  function ValidateTemplateAlias(alias: GoString): (r: Option<Error>)
    ensures r.Some? <==> CR in alias || LF in alias
    ensures r.Some? ==> r.value == HeaderInjection
  {
    ContainsByte(alias, CR);
    ContainsByte(alias, LF);
    if Contains(alias, [CR]) || Contains(alias, [LF]) then Some(HeaderInjection) else None
  }

  /** The fields of a `TemplatedEmail` that are plain values. */
  datatype TemplatedEmail = TemplatedEmail(
    templateID: int, templateAlias: GoString, inlineCSS: bool,
    from: GoString, to: GoString, cc: GoString, bcc: GoString, tag: GoString, replyTo: GoString,
    trackOpens: bool, trackLinks: GoString, messageStream: GoString)

  /** The `{"Messages": emails}` body of a batch send. */
  datatype BatchPayload = BatchPayload(messages: seq<TemplatedEmail>)

  /** The index of the first email whose alias the guard refuses, if any. */
  function FirstInvalidAlias(emails: seq<TemplatedEmail>): (r: Option<nat>)
    ensures r.None? <==> forall j | 0 <= j < |emails| :: ValidateTemplateAlias(emails[j].templateAlias).None?
    ensures r.Some? ==> r.value < |emails| && ValidateTemplateAlias(emails[r.value].templateAlias).Some?
    ensures r.Some? ==> forall j | 0 <= j < r.value :: ValidateTemplateAlias(emails[j].templateAlias).None?
    decreases |emails|
  {
    if emails == [] then None
    else if ValidateTemplateAlias(emails[0].templateAlias).Some? then Some(0)
    else
      match FirstInvalidAlias(emails[1..])
      case None => None
      case Some(i) => Some(i + 1)
  }

  // ---------------------------------------------------------------------
  // The listing query
  // ---------------------------------------------------------------------

  const TemplateTypeKey: GoString := Lit("TemplateType")
  const LayoutTemplateKey: GoString := Lit("LayoutTemplate")
  const TemplatesPath: GoString := Lit("templates")

  lemma TemplateKeyBytes()
    ensures |LayoutTemplateKey| > 0 && LayoutTemplateKey[0] == 76
    ensures |TemplateTypeKey| > 0 && TemplateTypeKey[0] == 84
    ensures |CountKey| > 0 && CountKey[0] == 99
    ensures |OffsetKey| > 0 && OffsetKey[0] == 111
    ensures Letters(LayoutTemplateKey) && Letters(TemplateTypeKey)
  {
    LitLetters("LayoutTemplate");
    LitLetters("TemplateType");
  }

  /** The values `GetTemplatesFiltered` adds: count and offset, then each filter that is not empty. */
  function TemplatesQuery(count: int, offset: int, templateType: GoString, layoutTemplate: GoString): Values {
    var paging := PagingQuery(count, offset);
    var typed := if templateType != [] then Add(paging, TemplateTypeKey, templateType) else paging;
    if layoutTemplate != [] then Add(typed, LayoutTemplateKey, layoutTemplate) else typed
  }

  /** The pairs of that query in encoded order: the layout filter, the type filter, count, offset. */
  function TemplatesPairs(count: int, offset: int, templateType: GoString, layoutTemplate: GoString): seq<Pair> {
    FilterPairs(LayoutTemplateKey, layoutTemplate) + FilterPairs(TemplateTypeKey, templateType) + PagingPairs(count, offset)
  }

  /** The keys of that query in encoded order. */
  function TemplatesKeys(templateType: GoString, layoutTemplate: GoString): seq<GoString> {
    FilterKeys(LayoutTemplateKey, layoutTemplate) + FilterKeys(TemplateTypeKey, templateType) + [CountKey, OffsetKey]
  }

  lemma TemplatesKeyList(count: int, offset: int, templateType: GoString, layoutTemplate: GoString)
    ensures KeysOf(TemplatesKeys(templateType, layoutTemplate), TemplatesPairs(count, offset, templateType, layoutTemplate))
  {
  }

  lemma TemplatesQueryKeys(count: int, offset: int, templateType: GoString, layoutTemplate: GoString)
    ensures var v := TemplatesQuery(count, offset, templateType, layoutTemplate);
      forall k :: k in v <==> k in TemplatesKeys(templateType, layoutTemplate)
  {
    var v := TemplatesQuery(count, offset, templateType, layoutTemplate);
    var keys := TemplatesKeys(templateType, layoutTemplate);
    assert v.Keys == {CountKey, OffsetKey} + (if templateType != [] then {TemplateTypeKey} else {})
                                           + (if layoutTemplate != [] then {LayoutTemplateKey} else {});
    forall k ensures k in v <==> k in keys {
      assert k in keys <==> (k == CountKey || k == OffsetKey || (templateType != [] && k == TemplateTypeKey)
                                                           || (layoutTemplate != [] && k == LayoutTemplateKey));
    }
  }

  lemma TemplatesQueryValues(count: int, offset: int, templateType: GoString, layoutTemplate: GoString)
    ensures var v := TemplatesQuery(count, offset, templateType, layoutTemplate);
      var ps := TemplatesPairs(count, offset, templateType, layoutTemplate);
      forall i | 0 <= i < |ps| :: Get(v, ps[i].0) == [ps[i].1]
  {
    var v := TemplatesQuery(count, offset, templateType, layoutTemplate);
    assert Get(v, CountKey) == [Decimal(count)] && Get(v, OffsetKey) == [Decimal(offset)]
      && (templateType != [] ==> Get(v, TemplateTypeKey) == [templateType])
      && (layoutTemplate != [] ==> Get(v, LayoutTemplateKey) == [layoutTemplate]) by {
      TemplateKeyBytes();
      var paging := PagingQuery(count, offset);
      assert Get(paging, CountKey) == [Decimal(count)];
      assert Get(paging, OffsetKey) == [Decimal(offset)];
    }
    FilteredValues(v, LayoutTemplateKey, layoutTemplate, TemplateTypeKey, templateType, PagingPairs(count, offset));
  }

  /**
   * The encoded query is the layout filter, then the type filter, each only
   * when it is not empty, then `count=C&offset=O`.
   */
  lemma TemplatesQueryEncodes(count: int, offset: int, templateType: GoString, layoutTemplate: GoString)
    ensures Encode(TemplatesQuery(count, offset, templateType, layoutTemplate))
         == Filter(LayoutTemplateKey, layoutTemplate) + Filter(TemplateTypeKey, templateType) + PagingText(count, offset)
  {
    var v := TemplatesQuery(count, offset, templateType, layoutTemplate);
    var filters := FilterPairs(LayoutTemplateKey, layoutTemplate) + FilterPairs(TemplateTypeKey, templateType);
    var ps := TemplatesPairs(count, offset, templateType, layoutTemplate);
    assert ps == filters + PagingPairs(count, offset);
    assert Encode(v) == JoinPairs(ps) by {
      TemplatesKeyList(count, offset, templateType, layoutTemplate);
      TemplatesQueryKeys(count, offset, templateType, layoutTemplate);
      TemplatesQueryValues(count, offset, templateType, layoutTemplate);
      TemplatesKeysIncrease(templateType, layoutTemplate);
      EncodeByFirstByte(v, ps, TemplatesKeys(templateType, layoutTemplate));
    }
    JoinPrefixed(filters, PagingPairs(count, offset));
    PagingPairsText(count, offset);
    assert Prefixes(filters) == Filter(LayoutTemplateKey, layoutTemplate) + Filter(TemplateTypeKey, templateType) by {
      TemplateKeyBytes();
      PrefixesAppend(FilterPairs(LayoutTemplateKey, layoutTemplate), FilterPairs(TemplateTypeKey, templateType));
      FilterText(LayoutTemplateKey, layoutTemplate);
      FilterText(TemplateTypeKey, templateType);
    }
  }

  lemma TemplatesKeysIncrease(templateType: GoString, layoutTemplate: GoString)
    ensures var keys := TemplatesKeys(templateType, layoutTemplate);
      && (forall i | 0 <= i < |keys| :: |keys[i]| > 0)
      && (forall i, j | 0 <= i < j < |keys| :: keys[i][0] < keys[j][0])
  {
    TemplateKeyBytes();
  }

  /** With neither filter, the listing path is `templates?count=C&offset=O`. */
  lemma UnfilteredTemplatesPath(count: int, offset: int)
    ensures BuildURLWithQuery(TemplatesPath, TemplatesQuery(count, offset, [], []))
         == TemplatesPath + [Question] + PagingText(count, offset)
  {
    TemplatesQueryEncodes(count, offset, [], []);
    assert |TemplatesQuery(count, offset, [], [])| > 0 by {
      assert CountKey in TemplatesQuery(count, offset, [], []);
    }
  }

  // ---------------------------------------------------------------------
  // Operations
  // ---------------------------------------------------------------------

  /** `GetTemplate`: GET `templates/<id>` with the id as given. */
  method GetTemplate<R>(c: Client, templateID: GoString, zero: R, json: Json<(), R>) returns (res: R, err: Option<Error>)
    modifies c.http
    ensures c.Answered(RequestSpec(MethodGet, Lit("templates/") + templateID, None, ServerTokenType), zero, json, res, err)
  {
    var dst := new Destination(zero);
    err := c.Get(Lit("templates/") + templateID, dst, json);
    res := dst.value;
  }

  /** The listing request: GET `templates` with its query, server token. */
  function TemplatesListing(count: int, offset: int, templateType: GoString, layoutTemplate: GoString): RequestSpec<()> {
    RequestSpec(MethodGet, BuildURLWithQuery(TemplatesPath, TemplatesQuery(count, offset, templateType, layoutTemplate)), None, ServerTokenType)
  }

  /** `GetTemplatesFiltered`: the listing, with its query built one value at a time. */
  method GetTemplatesFiltered<I>(c: Client, count: int, offset: int, templateType: GoString, layoutTemplate: GoString, json: Json<(), Page<I>>)
    returns (templates: seq<I>, total: int, err: Option<Error>)
    modifies c.http
    ensures c.Answered(TemplatesListing(count, offset, templateType, layoutTemplate), Page(0, []), json, Page(total, templates), err)
  {
    var values := BuildTemplatesQuery(count, offset, templateType, layoutTemplate);
    var path := BuildURLWithQuery(TemplatesPath, values);
    var dst := new Destination(Page(0, []));
    err := c.Get(path, dst, json);
    templates, total := dst.value.items, dst.value.totalCount;
    assert dst.value == Page(total, templates);
  }

  /**
   * The query of `GetTemplatesFiltered`, built by the `Add` calls in the
   * source's order; what the query holds is proved about the function
   * `TemplatesQuery` (`TemplatesQueryEncodes`).
   */
  method BuildTemplatesQuery(count: int, offset: int, templateType: GoString, layoutTemplate: GoString) returns (values: Values)
    ensures values == TemplatesQuery(count, offset, templateType, layoutTemplate)
  {
    values := map[];
    values := Add(values, CountKey, Decimal(count));
    values := Add(values, OffsetKey, Decimal(offset));
    if templateType != [] {
      values := Add(values, TemplateTypeKey, templateType);
    }
    if layoutTemplate != [] {
      values := Add(values, LayoutTemplateKey, layoutTemplate);
    }
  }

  /** `GetTemplates`: the listing with both filters empty. */
  method GetTemplates<I>(c: Client, count: int, offset: int, json: Json<(), Page<I>>)
    returns (templates: seq<I>, total: int, err: Option<Error>)
    modifies c.http
    ensures c.Answered(RequestSpec(MethodGet, TemplatesPath + [Question] + PagingText(count, offset), None, ServerTokenType),
                       Page(0, []), json, Page(total, templates), err)
  {
    UnfilteredTemplatesPath(count, offset);
    templates, total, err := GetTemplatesFiltered(c, count, offset, [], [], json);
  }

  /** `CreateTemplate`: POST the template to `templates`. */
  method CreateTemplate<T, R>(c: Client, template: T, zero: R, json: Json<T, R>) returns (res: R, err: Option<Error>)
    modifies c.http
    ensures c.Answered(RequestSpec(MethodPost, TemplatesPath, Some(template), ServerTokenType), zero, json, res, err)
  {
    var dst := new Destination(zero);
    err := c.Post(TemplatesPath, Some(template), dst, json);
    res := dst.value;
  }

  /** `EditTemplate`: PUT the template to `templates/<id>`. */
  method EditTemplate<T, R>(c: Client, templateID: GoString, template: T, zero: R, json: Json<T, R>) returns (res: R, err: Option<Error>)
    modifies c.http
    ensures c.Answered(RequestSpec(MethodPut, Lit("templates/") + templateID, Some(template), ServerTokenType), zero, json, res, err)
  {
    var dst := new Destination(zero);
    err := c.Put(Lit("templates/") + templateID, Some(template), dst, json);
    res := dst.value;
  }

  /** `DeleteTemplate`: DELETE `templates/<id>`; the dispatcher's error comes first, then a non-zero code. */
  method DeleteTemplate(c: Client, templateID: GoString, json: Json<(), APIError>) returns (err: Option<Error>)
    modifies c.http
    ensures c.ResolvedDispatcherFirst(RequestSpec(MethodDelete, Lit("templates/") + templateID, None, ServerTokenType), json, err)
  {
    var dst := new Destination(ZeroAPIError);
    var e := c.Delete(Lit("templates/") + templateID, dst, json);
    var res := dst.value;
    if e.Some? {
      return e;
    }
    if res.errorCode != 0 {
      return Some(API(res));
    }
    return None;
  }

  /** `ValidateTemplate`: POST the body to `templates/validate`. */
  method ValidateTemplate<B, R>(c: Client, body: B, zero: R, json: Json<B, R>) returns (res: R, err: Option<Error>)
    modifies c.http
    ensures c.Answered(RequestSpec(MethodPost, Lit("templates/validate"), Some(body), ServerTokenType), zero, json, res, err)
  {
    var dst := new Destination(zero);
    err := c.Post(Lit("templates/validate"), Some(body), dst, json);
    res := dst.value;
  }

  /** `SendTemplatedEmail`: a refused alias returns the guard's error and sends nothing; otherwise POST the email. */
  method SendTemplatedEmail<R>(c: Client, email: TemplatedEmail, zero: R, json: Json<TemplatedEmail, R>) returns (res: R, err: Option<Error>)
    modifies c.http
    ensures ValidateTemplateAlias(email.templateAlias).Some? ==>
      res == zero && err == Some(HeaderInjection) && c.http.sent == old(c.http.sent)
    ensures ValidateTemplateAlias(email.templateAlias).None? ==>
      c.Answered(RequestSpec(MethodPost, Lit("email/withTemplate"), Some(email), ServerTokenType), zero, json, res, err)
  {
    var invalid := ValidateTemplateAlias(email.templateAlias);
    if invalid.Some? {
      return zero, invalid;
    }
    var dst := new Destination(zero);
    err := c.Post(Lit("email/withTemplate"), Some(email), dst, json);
    res := dst.value;
  }

  /**
   * The error of a refused batch is recognised by `errors.Is` as
   * `ErrHeaderInjection`, through its `email <i>: ` wrapper, and as no other
   * error that wraps nothing.
   */
  lemma BatchRefusalIs(emails: seq<TemplatedEmail>, target: Error)
    requires FirstInvalidAlias(emails).Some? && !target.InEmail?
    ensures InEmail(FirstInvalidAlias(emails).value, HeaderInjection).Is(target) <==> target == HeaderInjection
  {
    IsUnwrapped(InEmail(FirstInvalidAlias(emails).value, HeaderInjection), target);
  }

  /**
   * `SendTemplatedEmailBatch`: the aliases are checked in order and the first
   * refused one ends the call with `email <i>: ` and the guard's error, before
   * anything is sent; otherwise the emails are posted together.
   */
  method SendTemplatedEmailBatch<R>(c: Client, emails: seq<TemplatedEmail>, json: Json<BatchPayload, seq<R>>) returns (res: seq<R>, err: Option<Error>)
    modifies c.http
    ensures FirstInvalidAlias(emails).Some? ==>
      res == [] && err == Some(InEmail(FirstInvalidAlias(emails).value, HeaderInjection)) && c.http.sent == old(c.http.sent)
    ensures FirstInvalidAlias(emails).Some? ==> err.Some? && err.value.Is(HeaderInjection)
    ensures FirstInvalidAlias(emails).None? ==>
      c.Answered(RequestSpec(MethodPost, Lit("email/batchWithTemplates"), Some(BatchPayload(emails)), ServerTokenType), [], json, res, err)
  {
    var i := 0;
    while i < |emails|
      invariant 0 <= i <= |emails|
      invariant forall j | 0 <= j < i :: ValidateTemplateAlias(emails[j].templateAlias).None?
    {
      var invalid := ValidateTemplateAlias(emails[i].templateAlias);
      if invalid.Some? {
        FirstInvalidAt(emails, i);
        return [], Some(InEmail(i, invalid.value));
      }
      i := i + 1;
    }
    var dst := new Destination([]);
    err := c.Post(Lit("email/batchWithTemplates"), Some(BatchPayload(emails)), dst, json);
    res := dst.value;
  }

  /** An invalid alias at i with none before it is the first one. */
  lemma FirstInvalidAt(emails: seq<TemplatedEmail>, i: nat)
    requires i < |emails| && ValidateTemplateAlias(emails[i].templateAlias).Some?
    requires forall j | 0 <= j < i :: ValidateTemplateAlias(emails[j].templateAlias).None?
    ensures FirstInvalidAlias(emails) == Some(i)
  {
  }

  /** `PushTemplates`: PUT the request to `templates/push` with the account token. */
  method PushTemplates<Q, R>(c: Client, request: Q, zero: R, json: Json<Q, R>) returns (res: R, err: Option<Error>)
    modifies c.http
    ensures c.Answered(RequestSpec(MethodPut, Lit("templates/push"), Some(request), AccountTokenType), zero, json, res, err)
  {
    var dst := new Destination(zero);
    err := c.PutWithAccountToken(Lit("templates/push"), Some(request), dst, json);
    res := dst.value;
  }
}
