/**
 * The client's two URL helpers: one appends an encoded query to a path, the
 * other first turns a map of loosely typed options into query values.
 */
module Helpers {
  import opened Wrappers
  import opened GoStrings
  import opened UrlValues

  const Question: byte := 63

  /** The option values callers pass: strings, integers and booleans. */
  datatype OptVal = Str(s: GoString) | Int(i: int) | Bool(b: bool)

  /** A Go `map[string]interface{}`; None is the nil map. */
  type Options = Option<map<GoString, OptVal>>

  /** `fmt.Sprintf("%v", v)` for the option values above. */
  function Format(v: OptVal): (r: GoString)
    ensures v.Str? ==> r == v.s
    ensures v.Int? ==> ParseDecimal(r) == Some(v.i)
    ensures v.Bool? ==> r == (if v.b then Lit("true") else Lit("false"))
  {
    match v
    case Str(s) => s
    case Int(i) => DecimalRoundTrip(i); Decimal(i)
    case Bool(b) => if b then Lit("true") else Lit("false")
  }

  /** `buildURLWithQuery`: the bare path when there are no values, otherwise path "?" encoded values. */
  function BuildURLWithQuery(path: GoString, query: Values): GoString {
    if |query| == 0 then path else path + [Question] + Encode(query)
  }

  /** The query values of the options named in ks: one formatted value per key. */
  function FormatAll(options: map<GoString, OptVal>, ks: set<GoString>): (r: Values)
    ensures r.Keys == ks * options.Keys
    ensures forall k | k in r :: r[k] == [Format(options[k])]
  {
    map k | k in ks && k in options :: [Format(options[k])]
  }

  /** What `buildURL` returns, however the loop happened to visit the map. */
  function OptionsURL(path: GoString, options: Options): GoString {
    match options
    case None => path
    case Some(opts) => BuildURLWithQuery(path, FormatAll(opts, opts.Keys))
  }

  /**
   * `buildURL`. Go visits a map in an unspecified order; the loop takes the
   * keys in an arbitrary order too, and the result is the same whatever it is.
   */
  method BuildURL(path: GoString, options: Options) returns (url: GoString)
    ensures url == OptionsURL(path, options)
  {
    if options.None? {
      return path;
    }
    var opts := options.value;
    var values: Values := map[];
    var done: set<GoString> := {};
    var remaining := opts.Keys;
    while remaining != {}
      invariant done + remaining == opts.Keys && done !! remaining
      invariant values == FormatAll(opts, done)
      decreases |remaining|
    {
      var k :| k in remaining;
      FormatOneMore(opts, done, k);
      values := Add(values, k, Format(opts[k]));
      done := done + {k};
      remaining := remaining - {k};
    }
    url := BuildURLWithQuery(path, values);
  }

  lemma FormatOneMore(options: map<GoString, OptVal>, done: set<GoString>, k: GoString)
    requires k in options && k !in done
    ensures Add(FormatAll(options, done), k, Format(options[k])) == FormatAll(options, done + {k})
  {
    var a := Add(FormatAll(options, done), k, Format(options[k]));
    var b := FormatAll(options, done + {k});
    assert a.Keys == b.Keys;
    forall j | j in a ensures a[j] == b[j] {
      assert Get(a, j) == a[j] && Get(b, j) == b[j];
    }
  }

  /**
   * No options, nil or empty, leave the path untouched; any option adds a
   * "?" and a query from which each option reads back as exactly its
   * formatted value, with no error.
   */
  lemma OptionsURLParses(path: GoString, options: Options)
    requires Question !in path
    ensures options.None? || |options.value| == 0 ==> OptionsURL(path, options) == path
    ensures options.Some? && |options.value| > 0 ==>
      var (p, q, found) := Cut(OptionsURL(path, options), Question);
      && p == path && found
      && ParseQuery(q) == Parsed(FormatAll(options.value, options.value.Keys), None)
  {
    if options.Some? {
      var opts := options.value;
      var values := FormatAll(opts, opts.Keys);
      if |opts| > 0 {
        var k :| k in opts;
        assert k in values;
        CutAtFirst(path, Question, Encode(values));
        ParseOfEncode(values);
      } else {
        assert values == map[];
      }
    }
  }

  /** A query of values whose lists are all non-empty reads back whole after the "?". */
  lemma BuildURLWithQueryParses(path: GoString, query: Values)
    requires Question !in path
    requires forall k | k in query :: query[k] != []
    ensures |query| == 0 ==> BuildURLWithQuery(path, query) == path
    ensures |query| > 0 ==>
      var (p, q, found) := Cut(BuildURLWithQuery(path, query), Question);
      p == path && found && ParseQuery(q) == Parsed(query, None)
  {
    if |query| > 0 {
      CutAtFirst(path, Question, Encode(query));
      ParseOfEncode(query);
    }
  }

  const CountKey: GoString := Lit("count")
  const OffsetKey: GoString := Lit("offset")

  lemma PagingKeyBytes()
    ensures CountKey == [99, 111, 117, 110, 116]
    ensures OffsetKey == [111, 102, 102, 115, 101, 116]
  {
  }

  lemma PagingKeyLetters()
    ensures Letters(CountKey) && Letters(OffsetKey)
  {
    LitLetters("count");
    LitLetters("offset");
  }

  lemma CountBeforeOffset()
    ensures Less(CountKey, OffsetKey)
  {
    PagingKeyBytes();
  }

  /** Only ASCII letters. */
  predicate Letters(key: GoString) {
    forall i | 0 <= i < |key| :: 65 <= key[i] <= 90 || 97 <= key[i] <= 122
  }

  lemma LitLetters(s: string)
    requires forall i | 0 <= i < |s| :: 'A' <= s[i] <= 'Z' || 'a' <= s[i] <= 'z'
    ensures Letters(Lit(s))
  {
  }

  /** A key of letters passes through QueryEscape unchanged. */
  lemma LetterKeyEscapes(key: GoString)
    requires Letters(key)
    ensures QueryEscape(key) == key
  {
    QueryEscapeUnreserved(key);
  }

  /** The `count` and `offset` values the paged listings add, both in decimal. */
  function PagingQuery(count: int, offset: int): Values {
    Add(Add(map[], CountKey, Decimal(count)), OffsetKey, Decimal(offset))
  }

  /** The paging query lists count, then offset, one value each. */
  lemma PagingQueryPairs(count: int, offset: int)
    ensures Encode(PagingQuery(count, offset))
         == JoinPairs([(CountKey, Decimal(count)), (OffsetKey, Decimal(offset))])
  {
    var qs := [(CountKey, Decimal(count)), (OffsetKey, Decimal(offset))];
    CountBeforeOffset();
    LessAsymmetric(CountKey, OffsetKey);
    EncodeInOrder(PagingQuery(count, offset), qs, [CountKey, OffsetKey]);
  }

  /** A key made of letters, and a decimal value, are written as they are. */
  lemma EncodeDecimalPair(key: GoString, n: int)
    requires Letters(key)
    ensures EncodePair((key, Decimal(n))) == key + [Equals] + Decimal(n)
  {
    LetterKeyEscapes(key);
    QueryEscapeDecimal(n);
  }

  /** The paging query always reads `count=C&offset=O`. */
  lemma PagingQueryEncodes(count: int, offset: int)
    ensures Encode(PagingQuery(count, offset)) == PagingText(count, offset)
  {
    PagingQueryPairs(count, offset);
    PagingPairsText(count, offset);
  }

  lemma Glue(a: GoString, b: GoString, c: GoString, d: GoString)
    ensures (a + [Equals] + b) + [Amp] + (c + [Equals] + d) == a + [Equals] + b + [Amp] + c + [Equals] + d
  {
  }

  lemma GlueMiddle(a: GoString, b: GoString, f: GoString, c: GoString, d: GoString)
    ensures (a + [Equals] + b) + [Amp] + (f + (c + [Equals] + d)) == a + [Equals] + b + [Amp] + f + c + [Equals] + d
  {
  }

  /** Keys whose first bytes increase along the list are in ascending order. */
  lemma AscendingByFirstByte(keys: seq<GoString>)
    requires forall i | 0 <= i < |keys| :: |keys[i]| > 0
    requires forall i, j | 0 <= i < j < |keys| :: keys[i][0] < keys[j][0]
    ensures Ascending(keys)
  {
  }

  /**
   * Values whose keys are those of qs, told apart by their first bytes and
   * listed in that order, one value each, encode as qs lists them.
   */
  lemma EncodeByFirstByte(v: Values, qs: seq<Pair>, keys: seq<GoString>)
    requires KeysOf(keys, qs)
    requires forall i | 0 <= i < |keys| :: |keys[i]| > 0
    requires forall i, j | 0 <= i < j < |keys| :: keys[i][0] < keys[j][0]
    requires forall k :: k in v <==> k in keys
    requires forall i | 0 <= i < |qs| :: Get(v, qs[i].0) == [qs[i].1]
    ensures Encode(v) == JoinPairs(qs)
  {
    AscendingByFirstByte(keys);
    EncodeInOrder(v, qs, keys);
  }

  /** The paging pairs in the order they are encoded. */
  function PagingPairs(count: int, offset: int): seq<Pair> {
    [(CountKey, Decimal(count)), (OffsetKey, Decimal(offset))]
  }

  /** `count=C&offset=O`. */
  function PagingText(count: int, offset: int): GoString {
    CountKey + [Equals] + Decimal(count) + [Amp] + OffsetKey + [Equals] + Decimal(offset)
  }

  lemma PagingPairsText(count: int, offset: int)
    ensures JoinPairs(PagingPairs(count, offset)) == PagingText(count, offset)
  {
    var p, q := (CountKey, Decimal(count)), (OffsetKey, Decimal(offset));
    JoinTwo(p, q);
    PagingKeyLetters();
    EncodeDecimalPair(CountKey, count);
    EncodeDecimalPair(OffsetKey, offset);
    Glue(CountKey, Decimal(count), OffsetKey, Decimal(offset));
  }

  /** Encoding pairs ahead of a non-empty list writes each of them and its "&" first. */
  lemma JoinAhead(p: Pair, rest: seq<Pair>)
    requires rest != []
    ensures JoinPairs([p] + rest) == EncodePair(p) + [Amp] + JoinPairs(rest)
  {
    assert ([p] + rest)[1..] == rest;
  }

  /** Each pair written out with the "&" that follows it. */
  function Prefixes(ps: seq<Pair>): GoString
    decreases |ps|
  {
    if ps == [] then [] else EncodePair(ps[0]) + [Amp] + Prefixes(ps[1..])
  }

  /** Pairs ahead of a non-empty list are written, each with its "&", before it. */
  lemma {:induction false} JoinPrefixed(extra: seq<Pair>, rest: seq<Pair>)
    requires rest != []
    ensures JoinPairs(extra + rest) == Prefixes(extra) + JoinPairs(rest)
    decreases |extra|
  {
    if extra != [] {
      assert extra + rest == [extra[0]] + (extra[1..] + rest);
      JoinAhead(extra[0], extra[1..] + rest);
      JoinPrefixed(extra[1..], rest);
      assert Prefixes(extra) == EncodePair(extra[0]) + [Amp] + Prefixes(extra[1..]);
      assert JoinPairs(extra + rest)
          == EncodePair(extra[0]) + [Amp] + (Prefixes(extra[1..]) + JoinPairs(rest));
    } else {
      assert extra + rest == rest;
    }
  }

  /** An optional filter in a query: nothing for an empty value, else `key=value&`. */
  function Filter(key: GoString, value: GoString): GoString {
    if value == [] then [] else key + [Equals] + QueryEscape(value) + [Amp]
  }

  /** The pair a filter adds, if any. */
  function FilterPairs(key: GoString, value: GoString): seq<Pair> {
    if value == [] then [] else [(key, value)]
  }

  lemma FilterText(key: GoString, value: GoString)
    requires Letters(key)
    ensures Prefixes(FilterPairs(key, value)) == Filter(key, value)
  {
    if value != [] {
      LetterKeyEscapes(key);
      assert FilterPairs(key, value)[1..] == [];
    }
  }

  /** The key a filter adds, if any. */
  function FilterKeys(key: GoString, value: GoString): seq<GoString> {
    if value == [] then [] else [key]
  }

  lemma {:induction false} PrefixesAppend(a: seq<Pair>, b: seq<Pair>)
    ensures Prefixes(a + b) == Prefixes(a) + Prefixes(b)
    decreases |a|
  {
    if a == [] {
      assert a + b == b;
    } else {
      assert (a + b)[1..] == a[1..] + b;
      PrefixesAppend(a[1..], b);
    }
  }

  /** Two optional filters ahead of fixed pairs, each present in v with its one value. */
  lemma FilteredValues(v: Values, k1: GoString, x1: GoString, k2: GoString, x2: GoString, fixed: seq<Pair>)
    requires x1 != [] ==> Get(v, k1) == [x1]
    requires x2 != [] ==> Get(v, k2) == [x2]
    requires forall i | 0 <= i < |fixed| :: Get(v, fixed[i].0) == [fixed[i].1]
    ensures var ps := FilterPairs(k1, x1) + FilterPairs(k2, x2) + fixed;
      forall i | 0 <= i < |ps| :: Get(v, ps[i].0) == [ps[i].1]
  {
    var ps := FilterPairs(k1, x1) + FilterPairs(k2, x2) + fixed;
    var n := |FilterPairs(k1, x1) + FilterPairs(k2, x2)|;
    forall i | 0 <= i < |ps| ensures Get(v, ps[i].0) == [ps[i].1] {
      if i >= n {
        assert ps[i] == fixed[i - n];
      } else if i == 0 && x1 != [] {
        assert ps[i] == (k1, x1);
      } else {
        assert ps[i] == (k2, x2);
      }
    }
  }
}
