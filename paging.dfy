/**
 * The paged listings that take a caller's option map: the client writes
 * `count` and `offset` into that map (making a fresh one for a nil map) and
 * builds the request path from every option in it.
 */
module Paging {
  import opened Wrappers
  import opened GoStrings
  import opened UrlValues
  import opened Helpers
  import opened Postmark

  /** A caller's `map[string]interface{}`, which the listing writes into; a nil map is `null`. */
  class OptionsMap {
    var entries: map<GoString, OptVal>

    constructor (entries: map<GoString, OptVal>)
      ensures this.entries == entries
    {
      this.entries := entries;
    }
  }

  /** The entries of a possibly nil map (a nil map has none). */
  function EntriesOf(options: OptionsMap?): map<GoString, OptVal>
    reads options
  {
    if options == null then map[] else options.entries
  }

  /** The options after `options["count"] = count; options["offset"] = offset`. */
  function WithPaging(before: map<GoString, OptVal>, count: int, offset: int): (r: map<GoString, OptVal>)
    ensures r.Keys == before.Keys + {CountKey, OffsetKey}
  {
    before[CountKey := Int(count)][OffsetKey := Int(offset)]
  }

  /**
   * Lines that open each options listing: a nil map is replaced by a fresh
   * one, otherwise the caller's own map receives count and offset, losing
   * whatever it held under those two keys and keeping everything else.
   */
  method InjectPaging(options: OptionsMap?, count: int, offset: int) returns (m: OptionsMap)
    modifies options
    ensures options != null ==> m == options
    ensures options == null ==> fresh(m)
    ensures m.entries == WithPaging(old(EntriesOf(options)), count, offset)
  {
    if options == null {
      m := new OptionsMap(map[]);
    } else {
      m := options;
    }
    m.entries := m.entries[CountKey := Int(count)];
    m.entries := m.entries[OffsetKey := Int(offset)];
  }

  /** The request of an options listing: GET the path built from the paged options, server token. */
  function PagedListing(path: GoString, before: map<GoString, OptVal>, count: int, offset: int): RequestSpec<()> {
    RequestSpec(MethodGet, OptionsURL(path, Some(WithPaging(before, count, offset))), None, ServerTokenType)
  }

  /** A literal without "?" gives a path without one. */
  lemma LitHasNoQuestion(s: string)
    requires forall i | 0 <= i < |s| :: s[i] != '?' && s[i] as int < 256
    ensures Question !in Lit(s)
  {
    var r := Lit(s);
    forall i | 0 <= i < |r| ensures r[i] != Question {
      assert r[i] as int == s[i] as int;
    }
  }

  /**
   * The path of an options listing always carries a query, and that query
   * reads back as: count and offset in decimal, whatever the caller had
   * under those keys, and every other option of the caller formatted with
   * `%v`, with nothing else and no error.
   */
  lemma PagedListingQuery(path: GoString, before: map<GoString, OptVal>, count: int, offset: int)
    requires Question !in path
    ensures var (p, q, found) := Cut(PagedListing(path, before, count, offset).path, Question);
      && p == path && found
      && var parsed := ParseQuery(q);
      && parsed.err.None?
      && parsed.values.Keys == before.Keys + {CountKey, OffsetKey}
      && parsed.values[CountKey] == [Decimal(count)]
      && parsed.values[OffsetKey] == [Decimal(offset)]
      && forall k | k in before && k != CountKey && k != OffsetKey :: parsed.values[k] == [Format(before[k])]
  {
    var opts := WithPaging(before, count, offset);
    assert Question !in path && |opts| > 0 by {
      assert CountKey in opts;
    }
    OptionsURLParses(path, Some(opts));
    PagedValues(before, count, offset);
  }

  /** The formatted paged options: count and offset in decimal, the other options as the caller gave them. */
  lemma PagedValues(before: map<GoString, OptVal>, count: int, offset: int)
    ensures var opts := WithPaging(before, count, offset);
      var values := FormatAll(opts, opts.Keys);
      && values.Keys == before.Keys + {CountKey, OffsetKey}
      && values[CountKey] == [Decimal(count)]
      && values[OffsetKey] == [Decimal(offset)]
      && forall k | k in before && k != CountKey && k != OffsetKey :: values[k] == [Format(before[k])]
  {
    var opts := WithPaging(before, count, offset);
    var values := FormatAll(opts, opts.Keys);
    assert CountKey != OffsetKey by {
      CountBeforeOffset();
      LessAsymmetric(CountKey, OffsetKey);
    }
    assert values[CountKey] == [Decimal(count)] by {
      assert opts[CountKey] == Int(count);
    }
    assert values[OffsetKey] == [Decimal(offset)];
    forall k | k in before && k != CountKey && k != OffsetKey ensures values[k] == [Format(before[k])] {
      assert opts[k] == before[k];
    }
  }

  // ---------------------------------------------------------------------
  // Listings with a fixed count and offset query
  // ---------------------------------------------------------------------

  /**
   * The `url.Values` these listings build: `Add("count", …)`, then
   * `Add("offset", …)`; what the query holds is proved about the function
   * `PagingQuery` (`PagingQueryEncodes`).
   */
  method BuildPagingQuery(count: int, offset: int) returns (values: Values)
    ensures values == PagingQuery(count, offset)
  {
    values := map[];
    values := Add(values, CountKey, Decimal(count));
    values := Add(values, OffsetKey, Decimal(offset));
  }

  /** Such a listing's path is the path, "?", and `count=C&offset=O`, whatever the path holds. */
  lemma PagingPath(path: GoString, count: int, offset: int)
    ensures BuildURLWithQuery(path, PagingQuery(count, offset)) == path + [Question] + PagingText(count, offset)
  {
    PagingQueryEncodes(count, offset);
    assert CountKey in PagingQuery(count, offset);
  }
}
