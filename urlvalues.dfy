/**
 * The parts of Go's `net/url` that the client's query building rests on:
 * `url.Values` (a map from key to a list of values), `Values.Add`,
 * `QueryEscape`/`QueryUnescape`, `Values.Encode` and `ParseQuery`.
 *
 * Escaping keeps exactly the unreserved bytes of section 2.3 of RFC 3986
 * (ALPHA, DIGIT, "-", ".", "_", "~"), writes a space as "+" (the
 * application/x-www-form-urlencoded convention), and writes every other byte
 * as "%" followed by two upper-case hexadecimal digits (section 2.1 of
 * RFC 3986). Encode emits the pairs ordered by key in Go's byte-wise string
 * order, each key's values in the order they were added, joined by "&".
 */
module UrlValues {
  import opened Wrappers
  import opened GoStrings

  /** `url.Values`: every key maps to the list of its values. */
  type Values = map<GoString, seq<GoString>>

  type Pair = (GoString, GoString)

  const Space: byte := 32
  const Percent: byte := 37
  const Amp: byte := 38
  const Plus: byte := 43
  const Semicolon: byte := 59
  const Equals: byte := 61

  /** `Values.Get`-style lookup of the whole list: nil (here []) for a missing key. */
  function Get(v: Values, key: GoString): seq<GoString> {
    if key in v then v[key] else []
  }

  /** `Values.Add`: append value to key's list, creating the list if needed. */
  function Add(v: Values, key: GoString, value: GoString): (r: Values)
    ensures r.Keys == v.Keys + {key}
    ensures Get(r, key) == Get(v, key) + [value]
    ensures forall k | k != key :: Get(r, k) == Get(v, k)
  {
    v[key := Get(v, key) + [value]]
  }

  /** Adding to a key not yet present gives it a one-value list. */
  lemma AddFresh(v: Values, key: GoString, value: GoString)
    requires key !in v
    ensures Add(v, key, value) == v[key := [value]]
  {
    assert Get(v, key) + [value] == [value];
  }

  /** The unreserved bytes of section 2.3 of RFC 3986. */
  predicate Unreserved(b: byte) {
    || 65 <= b <= 90     // A-Z
    || 97 <= b <= 122    // a-z
    || 48 <= b <= 57     // 0-9
    || b == 45 || b == 46 || b == 95 || b == 126   // - . _ ~
  }

  function HexDigit(d: nat): (b: byte)
    requires d < 16
  {
    if d < 10 then (48 + d) as byte else (55 + d) as byte   // 0-9, then A-F
  }

  /** The value of a hexadecimal digit, either case; None for any other byte. */
  function HexValue(b: byte): (r: Option<nat>)
    ensures r.Some? ==> r.value < 16
  {
    if 48 <= b <= 57 then Some((b as int) - 48)
    else if 65 <= b <= 70 then Some((b as int) - 55)
    else if 97 <= b <= 102 then Some((b as int) - 87)
    else None
  }

  lemma HexRoundTrip(d: nat)
    requires d < 16
    ensures HexValue(HexDigit(d)) == Some(d)
  {
  }

  /** How QueryEscape writes one byte. */
  function EscapeByte(b: byte): (r: GoString)
    ensures Unreserved(b) ==> r == [b]
    ensures b == Space ==> r == [Plus]
    ensures !Unreserved(b) && b != Space ==>
      |r| == 3 && r[0] == Percent && r[1] == HexDigit(b as int / 16) && r[2] == HexDigit(b as int % 16)
  {
    if Unreserved(b) then [b]
    else if b == Space then [Plus]
    else [Percent, HexDigit(b as int / 16), HexDigit(b as int % 16)]
  }

  /** `url.QueryEscape`. */
  function QueryEscape(s: GoString): (r: GoString)
    decreases |s|
  {
    if s == [] then [] else EscapeByte(s[0]) + QueryEscape(s[1..])
  }

  /** Bytes QueryEscape can emit: unreserved ones, "+", "%" and upper-case hex digits. */
  predicate EscapedByte(b: byte) {
    Unreserved(b) || b == Plus || b == Percent
  }

  lemma {:induction false} QueryEscapeBytes(s: GoString)
    ensures forall i | 0 <= i < |QueryEscape(s)| :: EscapedByte(QueryEscape(s)[i])
    decreases |s|
  {
    if s != [] {
      QueryEscapeBytes(s[1..]);
      assert QueryEscape(s) == EscapeByte(s[0]) + QueryEscape(s[1..]);
    }
  }

  /** The separators of a query never survive escaping. */
  lemma QueryEscapeHasNoSeparators(s: GoString)
    ensures Amp !in QueryEscape(s) && Equals !in QueryEscape(s) && Semicolon !in QueryEscape(s)
  {
    QueryEscapeBytes(s);
  }

  /** Escaping leaves a string of unreserved bytes unchanged. */
  lemma {:induction false} QueryEscapeUnreserved(s: GoString)
    requires forall i | 0 <= i < |s| :: Unreserved(s[i])
    ensures QueryEscape(s) == s
    decreases |s|
  {
    if s != [] {
      QueryEscapeUnreserved(s[1..]);
      assert s == [s[0]] + s[1..];
    }
  }

  /** Decimal renderings pass through escaping unchanged. */
  lemma QueryEscapeDecimal(n: int)
    ensures QueryEscape(Decimal(n)) == Decimal(n)
  {
    DecimalBytes(n);
    QueryEscapeUnreserved(Decimal(n));
  }

  function Prepend(b: byte, r: Result<GoString, GoString>): Result<GoString, GoString> {
    match r
    case Success(s) => Success([b] + s)
    case Failure(e) => r
  }

  /**
   * `url.QueryUnescape`: "+" becomes a space, "%" and two hex digits (either
   * case) become that byte, every other byte is kept. The first "%" not
   * followed by two hex digits fails, carrying the offending (at most three)
   * bytes.
   */
  function QueryUnescape(s: GoString): Result<GoString, GoString>
    decreases |s|
  {
    if s == [] then Success([])
    else if s[0] == Percent then
      if |s| < 3 || HexValue(s[1]).None? || HexValue(s[2]).None? then
        Failure(if |s| < 3 then s else s[..3])
      else
        Prepend((HexValue(s[1]).value * 16 + HexValue(s[2]).value) as byte, QueryUnescape(s[3..]))
    else if s[0] == Plus then Prepend(Space, QueryUnescape(s[1..]))
    else Prepend(s[0], QueryUnescape(s[1..]))
  }

  lemma UnescapeEscapedByte(b: byte, rest: GoString)
    ensures QueryUnescape(EscapeByte(b) + rest) == Prepend(b, QueryUnescape(rest))
  {
    var e := EscapeByte(b) + rest;
    if !Unreserved(b) && b != Space {
      HexRoundTrip(b as int / 16);
      HexRoundTrip(b as int % 16);
      assert e[3..] == rest;
    } else {
      assert e[1..] == rest;
    }
  }

  /** Unescaping an escaped string gives the original bytes back. */
  lemma {:induction false} UnescapeOfEscape(s: GoString)
    ensures QueryUnescape(QueryEscape(s)) == Success(s)
    decreases |s|
  {
    if s != [] {
      UnescapeOfEscape(s[1..]);
      UnescapeEscapedByte(s[0], QueryEscape(s[1..]));
      assert s == [s[0]] + s[1..];
    }
  }

  predicate Ascending(keys: seq<GoString>) {
    forall i, j | 0 <= i < j < |keys| :: Less(keys[i], keys[j])
  }

  /** The keys of a finite set in Go's string order, as `sort.Strings` leaves them. */
  function SortedKeys(ks: set<GoString>): (r: seq<GoString>)
    ensures |r| == |ks|
    ensures Ascending(r)
    ensures forall i | 0 <= i < |r| :: r[i] in ks
    ensures forall k | k in ks :: k in r
    decreases |ks|
  {
    if ks == {} then []
    else
      var m := Least(ks);
      [m] + SortedKeys(ks - {m})
  }

  /** An ascending listing of a set is the sorted one: the order does not depend on how the set was built. */
  lemma {:induction false} SortedKeysUnique(keys: seq<GoString>, ks: set<GoString>)
    requires Ascending(keys)
    requires forall i | 0 <= i < |keys| :: keys[i] in ks
    requires forall k | k in ks :: k in keys
    ensures SortedKeys(ks) == keys
    decreases |keys|
  {
    if keys == [] {
      assert ks == {};
    } else {
      var m := keys[0];
      assert IsLeast(m, ks) by {
        forall k | k in ks && k != m ensures Less(m, k) {
          var j :| 0 <= j < |keys| && keys[j] == k;
        }
      }
      LeastUnique(m, Least(ks), ks);
      var rest := keys[1..];
      forall i | 0 <= i < |rest| ensures rest[i] in ks - {m} {
        assert Less(keys[0], keys[i + 1]);
        LessIrreflexive(m);
      }
      forall k | k in ks - {m} ensures k in rest {
        var j :| 0 <= j < |keys| && keys[j] == k;
        assert j != 0;
        assert rest[j - 1] == k;
      }
      SortedKeysUnique(rest, ks - {m});
    }
  }

  /** The (key, value) pairs of one key, in the order its values were added. */
  function Tag(key: GoString, vs: seq<GoString>): (r: seq<Pair>)
    ensures |r| == |vs|
    ensures forall i | 0 <= i < |vs| :: r[i] == (key, vs[i])
  {
    seq(|vs|, i requires 0 <= i < |vs| => (key, vs[i]))
  }

  /** All pairs of v, key by key in the given key order. */
  function PairsOf(v: Values, keys: seq<GoString>): seq<Pair>
    decreases |keys|
  {
    if keys == [] then [] else Tag(keys[0], Get(v, keys[0])) + PairsOf(v, keys[1..])
  }

  function EncodePair(p: Pair): GoString {
    QueryEscape(p.0) + [Equals] + QueryEscape(p.1)
  }

  function JoinPairs(ps: seq<Pair>): GoString
    decreases |ps|
  {
    if ps == [] then []
    else if |ps| == 1 then EncodePair(ps[0])
    else EncodePair(ps[0]) + [Amp] + JoinPairs(ps[1..])
  }

  /** `Values.Encode`: all pairs, sorted by key, escaped, joined with "&"; "" for no pairs. */
  function Encode(v: Values): GoString {
    JoinPairs(PairsOf(v, SortedKeys(v.Keys)))
  }

  datatype QueryError = SemicolonSeparator | InvalidEscape(escape: GoString)

  /** `url.ParseQuery`'s two results: the values it could read, and the error it reports. */
  datatype Parsed = Parsed(values: Values, err: Option<QueryError>)

  function KeepFirst(err: Option<QueryError>, e: QueryError): Option<QueryError> {
    if err.None? then Some(e) else err
  }

  /**
   * The loop of `url.ParseQuery`: split off the text up to the next "&"; a
   * piece holding ";" sets the error (overwriting an earlier one); an empty
   * piece is skipped; otherwise split it at the first "=" and unescape both
   * sides, keeping the first unescaping error and skipping that piece.
   */
  function ParseInto(m: Values, err: Option<QueryError>, query: GoString): Parsed
    decreases |query|
  {
    if query == [] then Parsed(m, err)
    else
      var (piece, rest, _) := Cut(query, Amp);
      if Contains(piece, [Semicolon]) then ParseInto(m, Some(SemicolonSeparator), rest)
      else if piece == [] then ParseInto(m, err, rest)
      else
        var (k, val, _) := Cut(piece, Equals);
        match QueryUnescape(k)
        case Failure(e) => ParseInto(m, KeepFirst(err, InvalidEscape(e)), rest)
        case Success(key) =>
          match QueryUnescape(val)
          case Failure(e) => ParseInto(m, KeepFirst(err, InvalidEscape(e)), rest)
          case Success(value) => ParseInto(Add(m, key, value), err, rest)
  }

  function ParseQuery(query: GoString): Parsed {
    ParseInto(map[], None, query)
  }

  /** The values the pairs make when added one after the other. */
  function Group(m: Values, ps: seq<Pair>): Values
    decreases |ps|
  {
    if ps == [] then m else Group(Add(m, ps[0].0, ps[0].1), ps[1..])
  }

  lemma CutAtFirst(a: GoString, sep: byte, b: GoString)
    requires sep !in a
    ensures Cut(a + [sep] + b, sep) == (a, b, true)
  {
    var s := a + [sep] + b;
    assert s[|a|] == sep;
    assert s[..|a|] == a;
    assert s[|a| + 1..] == b;
  }

  /** What the parser sees in one encoded pair. */
  lemma EncodedPiece(p: Pair)
    ensures Amp !in EncodePair(p)
    ensures EncodePair(p) != [] && !Contains(EncodePair(p), [Semicolon])
    ensures Cut(EncodePair(p), Equals) == (QueryEscape(p.0), QueryEscape(p.1), true)
    ensures QueryUnescape(QueryEscape(p.0)) == Success(p.0)
    ensures QueryUnescape(QueryEscape(p.1)) == Success(p.1)
  {
    QueryEscapeHasNoSeparators(p.0);
    QueryEscapeHasNoSeparators(p.1);
    UnescapeOfEscape(p.0);
    UnescapeOfEscape(p.1);
    var piece := EncodePair(p);
    assert Amp !in piece && Semicolon !in piece by {
      forall i | 0 <= i < |piece| ensures piece[i] != Amp && piece[i] != Semicolon {
        if i < |QueryEscape(p.0)| {
          assert piece[i] == QueryEscape(p.0)[i];
        } else if i > |QueryEscape(p.0)| {
          assert piece[i] == QueryEscape(p.1)[i - |QueryEscape(p.0)| - 1];
        }
      }
    }
    ContainsByte(piece, Semicolon);
    CutAtFirst(QueryEscape(p.0), Equals, QueryEscape(p.1));
  }

  /** Parsing one encoded pair, followed by "&" and more, adds that pair and goes on. */
  lemma ParseEncodedPair(p: Pair, m: Values, err: Option<QueryError>, rest: GoString, last: bool)
    requires last ==> rest == []
    ensures ParseInto(m, err, if last then EncodePair(p) else EncodePair(p) + [Amp] + rest)
         == ParseInto(Add(m, p.0, p.1), err, rest)
  {
    EncodedPiece(p);
    if !last {
      CutAtFirst(EncodePair(p), Amp, rest);
    }
  }

  /** Parsing a joined list of pairs adds them in order and reports no error. */
  lemma {:induction false} ParseJoined(m: Values, err: Option<QueryError>, ps: seq<Pair>)
    ensures ParseInto(m, err, JoinPairs(ps)) == Parsed(Group(m, ps), err)
    decreases |ps|
  {
    if |ps| == 1 {
      ParseEncodedPair(ps[0], m, err, [], true);
    } else if |ps| > 1 {
      ParseEncodedPair(ps[0], m, err, JoinPairs(ps[1..]), false);
      ParseJoined(Add(m, ps[0].0, ps[0].1), err, ps[1..]);
    }
  }

  lemma {:induction false} GroupAppend(m: Values, a: seq<Pair>, b: seq<Pair>)
    ensures Group(m, a + b) == Group(Group(m, a), b)
    decreases |a|
  {
    if a == [] {
      assert a + b == b;
    } else {
      assert (a + b)[0] == a[0];
      assert (a + b)[1..] == a[1..] + b;
      GroupAppend(Add(m, a[0].0, a[0].1), a[1..], b);
    }
  }

  lemma {:induction false} GroupTag(m: Values, key: GoString, vs: seq<GoString>)
    requires vs != []
    ensures Group(m, Tag(key, vs)) == m[key := Get(m, key) + vs]
    decreases |vs|
  {
    var last := vs[..|vs| - 1];
    var x := vs[|vs| - 1];
    assert Tag(key, vs) == Tag(key, last) + [(key, x)];
    GroupAppend(m, Tag(key, last), [(key, x)]);
    if last == [] {
      assert vs == [x];
      assert Tag(key, last) == [];
      assert [(key, x)][1..] == [];
    } else {
      GroupTag(m, key, last);
      var m1 := m[key := Get(m, key) + last];
      assert [(key, x)][1..] == [];
      assert Group(m1, [(key, x)]) == Add(m1, key, x);
      assert Get(m1, key) == Get(m, key) + last;
      assert Get(m, key) + last + [x] == Get(m, key) + vs;
    }
  }

  /** Adding the pairs of distinct, fresh keys with non-empty lists copies those entries of v. */
  lemma {:induction false} GroupPairs(m: Values, v: Values, keys: seq<GoString>)
    requires forall i, j | 0 <= i < j < |keys| :: keys[i] != keys[j]
    requires forall i | 0 <= i < |keys| :: keys[i] in v && v[keys[i]] != [] && keys[i] !in m
    ensures forall k :: k in Group(m, PairsOf(v, keys)) <==> k in m || k in keys
    ensures forall k | k in m :: Group(m, PairsOf(v, keys))[k] == m[k]
    ensures forall i | 0 <= i < |keys| :: Group(m, PairsOf(v, keys))[keys[i]] == v[keys[i]]
    decreases |keys|
  {
    if keys == [] {
    } else {
      var k0 := keys[0];
      var rest := keys[1..];
      GroupAppend(m, Tag(k0, v[k0]), PairsOf(v, rest));
      GroupTag(m, k0, v[k0]);
      var m' := m[k0 := v[k0]];
      forall i | 0 <= i < |rest| ensures rest[i] !in m' {
        assert keys[0] != keys[i + 1];
      }
      GroupPairs(m', v, rest);
      var g := Group(m, PairsOf(v, keys));
      assert PairsOf(v, keys) == Tag(k0, v[k0]) + PairsOf(v, rest);
      assert Get(m, k0) + v[k0] == v[k0];
      assert g == Group(m', PairsOf(v, rest));
      assert forall k :: k in keys <==> k == k0 || k in rest;
      forall i | 0 <= i < |keys| ensures g[keys[i]] == v[keys[i]] {
        if i > 0 { assert keys[i] == rest[i - 1]; }
      }
    }
  }

  lemma AscendingDistinct(keys: seq<GoString>)
    requires Ascending(keys)
    ensures forall i, j | 0 <= i < j < |keys| :: keys[i] != keys[j]
  {
    forall i, j | 0 <= i < j < |keys| ensures keys[i] != keys[j] {
      LessAsymmetric(keys[i], keys[j]);
    }
  }

  /** Adding all pairs of v, key by key in sorted order, rebuilds v. */
  lemma GroupSorted(v: Values)
    requires forall k | k in v :: v[k] != []
    ensures Group(map[], PairsOf(v, SortedKeys(v.Keys))) == v
  {
    var keys := SortedKeys(v.Keys);
    AscendingDistinct(keys);
    GroupPairs(map[], v, keys);
    SameEntries(Group(map[], PairsOf(v, keys)), v, keys);
  }

  /** Two maps whose keys are both listed by keys, and that agree on every listed key, are equal. */
  lemma SameEntries(g: Values, v: Values, keys: seq<GoString>)
    requires forall k :: k in g <==> k in keys
    requires forall i | 0 <= i < |keys| :: keys[i] in v && g[keys[i]] == v[keys[i]]
    requires forall k | k in v :: k in keys
    ensures g == v
  {
    forall k | k in v ensures k in g && g[k] == v[k] {
      var i :| 0 <= i < |keys| && keys[i] == k;
    }
    forall k | k in g ensures k in v {
      var i :| 0 <= i < |keys| && keys[i] == k;
    }
    assert g.Keys == v.Keys;
  }

  /**
   * Parsing what Encode writes gives the same values back, with no error,
   * provided no key has an empty list (such a key writes nothing at all).
   */
  lemma ParseOfEncode(v: Values)
    requires forall k | k in v :: v[k] != []
    ensures ParseQuery(Encode(v)) == Parsed(v, None)
  {
    ParseJoined(map[], None, PairsOf(v, SortedKeys(v.Keys)));
    GroupSorted(v);
  }

  /** Encode lists the pairs in the order of any ascending listing of the keys. */
  lemma EncodeListed(v: Values, keys: seq<GoString>)
    requires Ascending(keys)
    requires forall i | 0 <= i < |keys| :: keys[i] in v
    requires forall k | k in v :: k in keys
    ensures Encode(v) == JoinPairs(PairsOf(v, keys))
  {
    SortedKeysUnique(keys, v.Keys);
  }

  /** keys lists the keys of ps, in order. */
  predicate KeysOf(keys: seq<GoString>, ps: seq<Pair>) {
    |keys| == |ps| && forall i | 0 <= i < |ps| :: keys[i] == ps[i].0
  }

  /** The keys of ps, in order. */
  function KeyList(ps: seq<Pair>): (keys: seq<GoString>)
    ensures KeysOf(keys, ps)
    decreases |ps|
  {
    if ps == [] then [] else [ps[0].0] + KeyList(ps[1..])
  }

  lemma {:induction false} PairsOfValues(v: Values, ps: seq<Pair>, keys: seq<GoString>)
    requires KeysOf(keys, ps)
    requires forall i | 0 <= i < |ps| :: Get(v, ps[i].0) == [ps[i].1]
    ensures PairsOf(v, keys) == ps
    decreases |ps|
  {
    if ps != [] {
      PairsOfValues(v, ps[1..], keys[1..]);
      assert Get(v, keys[0]) == [ps[0].1];
      assert Tag(ps[0].0, [ps[0].1]) == [ps[0]];
      assert ps == [ps[0]] + ps[1..];
    }
  }

  lemma EncodeListedExactly(v: Values, keys: seq<GoString>)
    requires Ascending(keys)
    requires forall k :: k in v <==> k in keys
    ensures Encode(v) == JoinPairs(PairsOf(v, keys))
  {
    forall i | 0 <= i < |keys| ensures keys[i] in v {
      assert keys[i] in keys;
    }
    EncodeListed(v, keys);
  }

  /**
   * Values holding exactly the keys of qs, one value each, encode as qs
   * does once qs is listed in ascending key order: the order the values
   * were added in does not matter.
   */
  lemma EncodeInOrder(v: Values, qs: seq<Pair>, keys: seq<GoString>)
    requires KeysOf(keys, qs) && Ascending(keys)
    requires forall k :: k in v <==> k in keys
    requires forall i | 0 <= i < |qs| :: Get(v, qs[i].0) == [qs[i].1]
    ensures Encode(v) == JoinPairs(qs)
  {
    EncodeListedExactly(v, keys);
    PairsOfValues(v, qs, keys);
  }

  lemma JoinTwo(p: Pair, q: Pair)
    ensures JoinPairs([p, q]) == EncodePair(p) + [Amp] + EncodePair(q)
  {
    assert [p, q][1..] == [q];
  }

  lemma JoinThree(p: Pair, q: Pair, r: Pair)
    ensures JoinPairs([p, q, r]) == EncodePair(p) + [Amp] + EncodePair(q) + [Amp] + EncodePair(r)
  {
    assert [p, q, r][1..] == [q, r];
    JoinTwo(q, r);
  }
}
