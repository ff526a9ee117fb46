/**
 * The server operations of the account API: fetching, listing, creating,
 * editing and deleting servers, all with the account token, and the JSON
 * form of a `Server`, which fills in two defaults.
 */
module Servers {
  import opened Wrappers
  import opened GoStrings
  import opened UrlValues
  import opened Helpers
  import opened Postmark

  /** A server registered in a Postmark account (`int64` fields as unbounded integers). */
  datatype Server = Server(
    id: int, name: GoString, apiTokens: seq<GoString>, serverLink: GoString, color: GoString,
    smtpAPIActivated: bool, rawEmailEnabled: bool, deliveryType: GoString,
    inboundAddress: GoString, inboundHookURL: GoString, bounceHookURL: GoString,
    openHookURL: GoString, deliveryHookURL: GoString, postFirstOpenOnly: bool,
    trackOpens: bool, trackLinks: GoString, includeBounceContentInHook: bool,
    inboundDomain: GoString, inboundHash: GoString, inboundSpamThreshold: int,
    enableSMTPAPIErrorHooks: bool)

  /** `Server{}`. */
  const ZeroServer: Server := Server(0, [], [], [], [], false, false, [], [], [], [], [], [], false, false, [], false, [], [], 0, false)

  const DefaultTrackLinks: GoString := Lit("None")
  const DefaultDeliveryType: GoString := Lit("Live")

  // ---------------------------------------------------------------------
  // The JSON form of a server
  // ---------------------------------------------------------------------

  /**
   * The record `Server.MarshalJSON` hands to the encoder: the server itself,
   * with an empty TrackLinks written as "None" and an empty DeliveryType as
   * "Live"; no other field changes.
   */
  function WithDefaults(s: Server): (r: Server)
    ensures r.trackLinks == (if s.trackLinks == [] then DefaultTrackLinks else s.trackLinks)
    ensures r.deliveryType == (if s.deliveryType == [] then DefaultDeliveryType else s.deliveryType)
    ensures r.(trackLinks := s.trackLinks, deliveryType := s.deliveryType) == s
  {
    var trackLinks := if s.trackLinks == [] then DefaultTrackLinks else s.trackLinks;
    var deliveryType := if s.deliveryType == [] then DefaultDeliveryType else s.deliveryType;
    s.(trackLinks := trackLinks, deliveryType := deliveryType)
  }

  /** `Server.MarshalJSON`: the encoding of the defaulted record. */
  function MarshalJSON(s: Server, encode: Server -> Result<Bytes, GoString>): Result<Bytes, GoString> {
    encode(WithDefaults(s))
  }

  /** The JSON form never carries an empty TrackLinks or DeliveryType, and a set value is kept as it is. */
  lemma DefaultsFilled(s: Server)
    ensures WithDefaults(s).trackLinks != [] && WithDefaults(s).deliveryType != []
    ensures s.trackLinks != [] ==> WithDefaults(s).trackLinks == s.trackLinks
    ensures s.deliveryType != [] ==> WithDefaults(s).deliveryType == s.deliveryType
  {
  }

  /** Filling in the defaults twice is filling them in once, so marshalling a defaulted server changes nothing. */
  lemma WithDefaultsIdempotent(s: Server, encode: Server -> Result<Bytes, GoString>)
    ensures WithDefaults(WithDefaults(s)) == WithDefaults(s)
    ensures MarshalJSON(WithDefaults(s), encode) == MarshalJSON(s, encode)
  {
  }

  /** Two servers marshal alike when they differ only in empty-versus-default TrackLinks and DeliveryType. */
  lemma DefaultsIndistinguishable(s: Server, encode: Server -> Result<Bytes, GoString>)
    requires s.trackLinks == [] && s.deliveryType == []
    ensures MarshalJSON(s, encode) == MarshalJSON(s.(trackLinks := DefaultTrackLinks, deliveryType := DefaultDeliveryType), encode)
  {
    assert |DefaultTrackLinks| == 4 && |DefaultDeliveryType| == 4;
  }

  // ---------------------------------------------------------------------
  // The listing query
  // ---------------------------------------------------------------------

  const ServersPath: GoString := Lit("servers")
  const NameKey: GoString := Lit("name")

  lemma NameKeyBytes()
    ensures |NameKey| > 0 && NameKey[0] == 110 && Letters(NameKey)
  {
    LitLetters("name");
  }

  /** The values `GetServers` adds: count, offset, and the name when it is not empty. */
  function ServersQuery(count: int, offset: int, name: GoString): Values {
    var paging := PagingQuery(count, offset);
    if name != [] then Add(paging, NameKey, name) else paging
  }

  /** The pairs of that query in encoded order: count, the name if any, offset. */
  function ServersPairs(count: int, offset: int, name: GoString): seq<Pair> {
    [(CountKey, Decimal(count))] + FilterPairs(NameKey, name) + [(OffsetKey, Decimal(offset))]
  }

  function ServersKeys(name: GoString): seq<GoString> {
    [CountKey] + FilterKeys(NameKey, name) + [OffsetKey]
  }

  lemma ServersQueryKeys(count: int, offset: int, name: GoString)
    ensures var v := ServersQuery(count, offset, name);
      forall k :: k in v <==> k in ServersKeys(name)
  {
    var v := ServersQuery(count, offset, name);
    var keys := ServersKeys(name);
    assert v.Keys == {CountKey, OffsetKey} + (if name != [] then {NameKey} else {});
    forall k ensures k in v <==> k in keys {
      assert k in keys <==> (k == CountKey || k == OffsetKey || (name != [] && k == NameKey));
    }
  }

  lemma ServersQueryValues(count: int, offset: int, name: GoString)
    ensures var v := ServersQuery(count, offset, name);
      var ps := ServersPairs(count, offset, name);
      forall i | 0 <= i < |ps| :: Get(v, ps[i].0) == [ps[i].1]
  {
    var v := ServersQuery(count, offset, name);
    var ps := ServersPairs(count, offset, name);
    assert Get(v, CountKey) == [Decimal(count)] && Get(v, OffsetKey) == [Decimal(offset)]
      && (name != [] ==> Get(v, NameKey) == [name]) by {
      NameKeyBytes();
      PagingKeyBytes();
      var paging := PagingQuery(count, offset);
      assert Get(paging, CountKey) == [Decimal(count)];
      assert Get(paging, OffsetKey) == [Decimal(offset)];
    }
    forall i | 0 <= i < |ps| ensures Get(v, ps[i].0) == [ps[i].1] {
      if i == 0 {
        assert ps[i] == (CountKey, Decimal(count));
      } else if i == |ps| - 1 {
        assert ps[i] == (OffsetKey, Decimal(offset));
      } else {
        assert ps[i] == (NameKey, name);
      }
    }
  }

  lemma ServersKeysIncrease(name: GoString)
    ensures var keys := ServersKeys(name);
      && (forall i | 0 <= i < |keys| :: |keys[i]| > 0)
      && (forall i, j | 0 <= i < j < |keys| :: keys[i][0] < keys[j][0])
  {
    NameKeyBytes();
    PagingKeyBytes();
  }

  /** `count=C&name=N&offset=O`, the name part only when the name is not empty. */
  function ServersQueryText(count: int, offset: int, name: GoString): GoString {
    CountKey + [Equals] + Decimal(count) + [Amp] + Filter(NameKey, name) + OffsetKey + [Equals] + Decimal(offset)
  }

  /** The encoded query is count, then the name filter if any, then offset. */
  lemma ServersQueryEncodes(count: int, offset: int, name: GoString)
    ensures Encode(ServersQuery(count, offset, name)) == ServersQueryText(count, offset, name)
  {
    var v := ServersQuery(count, offset, name);
    var ps := ServersPairs(count, offset, name);
    var keys := ServersKeys(name);
    assert KeysOf(keys, ps);
    assert forall k :: k in v <==> k in keys by {
      ServersQueryKeys(count, offset, name);
    }
    assert forall i | 0 <= i < |ps| :: Get(v, ps[i].0) == [ps[i].1] by {
      ServersQueryValues(count, offset, name);
    }
    assert (forall i | 0 <= i < |keys| :: |keys[i]| > 0) && (forall i, j | 0 <= i < j < |keys| :: keys[i][0] < keys[j][0]) by {
      ServersKeysIncrease(name);
    }
    EncodeByFirstByte(v, ps, keys);
    ServersPairsText(count, offset, name);
  }

  /** The pairs, joined, read as the query text. */
  lemma ServersPairsText(count: int, offset: int, name: GoString)
    ensures JoinPairs(ServersPairs(count, offset, name)) == ServersQueryText(count, offset, name)
  {
    var ps := ServersPairs(count, offset, name);
    var c, o := (CountKey, Decimal(count)), (OffsetKey, Decimal(offset));
    var f := FilterPairs(NameKey, name);
    assert JoinPairs(ps) == EncodePair(c) + [Amp] + (Prefixes(f) + EncodePair(o)) by {
      assert ps == [c] + (f + [o]);
      JoinAhead(c, f + [o]);
      JoinPrefixed(f, [o]);
    }
    assert Prefixes(f) == Filter(NameKey, name) by {
      NameKeyBytes();
      FilterText(NameKey, name);
    }
    assert EncodePair(c) == CountKey + [Equals] + Decimal(count) && EncodePair(o) == OffsetKey + [Equals] + Decimal(offset) by {
      PagingKeyLetters();
      EncodeDecimalPair(CountKey, count);
      EncodeDecimalPair(OffsetKey, offset);
    }
    GlueMiddle(CountKey, Decimal(count), Filter(NameKey, name), OffsetKey, Decimal(offset));
  }

  // ---------------------------------------------------------------------
  // Operations
  // ---------------------------------------------------------------------

  function ServerPath(serverID: int): GoString {
    Lit("servers/") + Decimal(serverID)
  }

  /** `GetServer`: GET `servers/<id>` with the account token. */
  method GetServer(c: Client, serverID: int, json: Json<(), Server>) returns (res: Server, err: Option<Error>)
    modifies c.http
    ensures c.Answered(RequestSpec(MethodGet, ServerPath(serverID), None, AccountTokenType), ZeroServer, json, res, err)
  {
    var dst := new Destination(ZeroServer);
    err := c.DoRequest(RequestSpec(MethodGet, ServerPath(serverID), None, AccountTokenType), dst, json);
    res := dst.value;
  }

  /** The listing request: GET `servers?` and the encoded query (the "?" even before an empty query), account token. */
  function ServersListing(count: int, offset: int, name: GoString): RequestSpec<()> {
    RequestSpec(MethodGet, ServersPath + [Question] + Encode(ServersQuery(count, offset, name)), None, AccountTokenType)
  }

  /**
   * The query of `GetServers`, built by the `Add` calls in the source's
   * order; what the query holds is proved about the function
   * `ServersQuery` (`ServersQueryEncodes`).
   */
  method BuildServersQuery(count: int, offset: int, name: GoString) returns (values: Values)
    ensures values == ServersQuery(count, offset, name)
  {
    values := map[];
    values := Add(values, CountKey, Decimal(count));
    values := Add(values, OffsetKey, Decimal(offset));
    if name != [] {
      values := Add(values, NameKey, name);
    }
  }

  /** `GetServers`: the listing, decoded into a `ServersList`. */
  method GetServers(c: Client, count: int, offset: int, name: GoString, json: Json<(), Page<Server>>)
    returns (res: Page<Server>, err: Option<Error>)
    modifies c.http
    ensures c.Answered(ServersListing(count, offset, name), Page(0, []), json, res, err)
  {
    var values := BuildServersQuery(count, offset, name);
    var dst := new Destination(Page(0, []));
    err := c.DoRequest(RequestSpec(MethodGet, ServersPath + [Question] + Encode(values), None, AccountTokenType), dst, json);
    res := dst.value;
  }

  /** The listing path reads `servers?count=C&name=N&offset=O`, the name part only for a non-empty name. */
  lemma ServersListingPath(count: int, offset: int, name: GoString)
    ensures ServersListing(count, offset, name).path == ServersPath + [Question] + ServersQueryText(count, offset, name)
  {
    ServersQueryEncodes(count, offset, name);
  }

  /** `EditServer`: PUT the request to `servers/<id>`. */
  method EditServer<Q>(c: Client, serverID: int, request: Q, json: Json<Q, Server>) returns (res: Server, err: Option<Error>)
    modifies c.http
    ensures c.Answered(RequestSpec(MethodPut, ServerPath(serverID), Some(request), AccountTokenType), ZeroServer, json, res, err)
  {
    var dst := new Destination(ZeroServer);
    err := c.DoRequest(RequestSpec(MethodPut, ServerPath(serverID), Some(request), AccountTokenType), dst, json);
    res := dst.value;
  }

  /** `CreateServer`: POST the request to `servers`. */
  method CreateServer<Q>(c: Client, request: Q, json: Json<Q, Server>) returns (res: Server, err: Option<Error>)
    modifies c.http
    ensures c.Answered(RequestSpec(MethodPost, ServersPath, Some(request), AccountTokenType), ZeroServer, json, res, err)
  {
    var dst := new Destination(ZeroServer);
    err := c.DoRequest(RequestSpec(MethodPost, ServersPath, Some(request), AccountTokenType), dst, json);
    res := dst.value;
  }

  /** `DeleteServer`: DELETE `servers/<id>`; a non-zero decoded code wins over the dispatcher's error. */
  method DeleteServer(c: Client, serverID: int, json: Json<(), APIError>) returns (err: Option<Error>)
    modifies c.http
    ensures c.ResolvedCodeFirst(RequestSpec(MethodDelete, ServerPath(serverID), None, AccountTokenType), json, err)
  {
    var dst := new Destination(ZeroAPIError);
    var e := c.DoRequest(RequestSpec(MethodDelete, ServerPath(serverID), None, AccountTokenType), dst, json);
    var res := dst.value;
    if res.errorCode != 0 {
      return Some(API(res));
    }
    return e;
  }
}
