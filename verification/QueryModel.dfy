/**
 * Query strings on values: cutting a query into parameters, percent-decoding
 * (section 2.1 of RFC 3986) and what a client writes to have its values read back.
 */
module QueryModel {
  import opened Options

  const NUL := '\0'

  /** The first position of `c`, or the length. */
  function IndexOf(s: string, c: char): (i: nat)
    ensures i <= |s| && c !in s[..i] && (i < |s| ==> s[i] == c)
  {
    if s == [] || s[0] == c then 0 else 1 + IndexOf(s[1..], c)
  }

  lemma {:induction false} IndexIsFirst(s: string, c: char, k: nat)
    requires k <= |s| && c !in s[..k] && (k < |s| ==> s[k] == c)
    ensures IndexOf(s, c) == k
  {
    if k > 0 {
      assert s[0] == s[..k][0];
      assert s[1..][..k - 1] == s[..k][1..];
      IndexIsFirst(s[1..], c, k - 1);
    }
  }

  /** What a C reader sees of `s`: everything before the first NUL. */
  function Cut(s: string): string {
    s[..IndexOf(s, NUL)]
  }

  // ----- percent-decoding

  predicate IsHex(c: char) {
    '0' <= c <= '9' || 'a' <= c <= 'f' || 'A' <= c <= 'F'
  }

  function HexValue(c: char): (v: nat)
    requires IsHex(c)
    ensures v < 16
  {
    if c <= '9' then c as int - '0' as int
    else if c <= 'F' then c as int - 'A' as int + 10
    else c as int - 'a' as int + 10
  }

  predicate Escaped(s: string) {
    |s| >= 3 && s[0] == '%' && IsHex(s[1]) && IsHex(s[2])
  }

  function Unescaped(s: string): char
    requires Escaped(s)
  {
    (16 * HexValue(s[1]) + HexValue(s[2])) as char
  }

  function Decode(s: string): (d: string)
    ensures |d| <= |s|
  {
    if s == [] then []
    else if Escaped(s) then [Unescaped(s)] + Decode(s[3..])
    else [if s[0] == '+' then ' ' else s[0]] + Decode(s[1..])
  }

  // ----- cutting into parameters

  datatype Pair = Pair(name: string, value: Option<string>)

  function PairOf(piece: string): Pair {
    var eq := IndexOf(piece, '=');
    if eq < |piece| then Pair(piece[..eq], Some(piece[eq + 1..])) else Pair(piece, None)
  }

  /** The piece that the next parameter is made of, and whether another one stands behind it. */
  function Piece(q: string): (r: (string, bool))
    ensures r.1 ==> |r.0| < |q|
  {
    var amp := IndexOf(q, '&');
    if amp < |q| then (q[..amp], true) else (q[..IndexOf(q, ' ')], false)
  }

  function Split(q: string, limit: nat): seq<Pair> {
    if limit == 0 then []
    else
      var (piece, more) := Piece(q);
      [PairOf(piece)] + if more then Split(q[|piece| + 1..], limit - 1) else []
  }

  function Extract(q: string, limit: nat): seq<Pair> {
    if q == [] then [] else Split(q, limit)
  }

  /** A value decoded in place, as its reader sees it. */
  function DecodePair(p: Pair): Pair {
    match p.value
    case None => p
    case Some(v) => p.(value := Some(Cut(Decode(v))))
  }

  function DecodeAll(ps: seq<Pair>): (r: seq<Pair>)
    ensures |r| == |ps| && forall k :: 0 <= k < |ps| ==> r[k] == DecodePair(ps[k])
  {
    if ps == [] then [] else [DecodePair(ps[0])] + DecodeAll(ps[1..])
  }

  /** The parameters a handler gets for a query. */
  function Parameters(q: string, limit: nat): seq<Pair> {
    DecodeAll(Extract(q, limit))
  }

  // ----- what a client writes

  /** `c` written raw, as '+', or as a percent sign and two hex digits of either case. */
  predicate SpellsChar(e: string, c: char) {
    || (e == [c] && c !in "%+& ")
    || (e == "+" && c == ' ')
    || (|e| == 3 && Escaped(e) && Unescaped(e) == c)
  }

  /** `e` is one of the ways to write `v` inside a query. */
  ghost predicate Spells(e: string, v: string) {
    if v == [] then e == []
    else exists k | 0 <= k <= |e| :: SpellsChar(e[..k], v[0]) && Spells(e[k..], v[1..])
  }

  datatype Param = Param(name: string, value: string, spelling: string)

  /** A name that needs no decoding, a value any C string can hold, and its spelling. */
  ghost predicate Sendable(p: Param) {
    && NUL !in p.name && '&' !in p.name && '=' !in p.name && ' ' !in p.name
    && NUL !in p.value && Spells(p.spelling, p.value)
  }

  function Write(p: Param): string {
    p.name + "=" + p.spelling
  }

  function Join(ps: seq<Param>): string {
    if ps == [] then ""
    else if |ps| == 1 then Write(ps[0])
    else Write(ps[0]) + "&" + Join(ps[1..])
  }

  function Sent(ps: seq<Param>): (r: seq<Pair>)
    ensures |r| == |ps|
  {
    if ps == [] then [] else [Pair(ps[0].name, Some(ps[0].value))] + Sent(ps[1..])
  }

  lemma SpellOneMore(e: string, c: char, es: string, v: string)
    requires SpellsChar(e, c) && Spells(es, v)
    ensures Spells(e + es, [c] + v)
  {
    assert (e + es)[..|e|] == e && (e + es)[|e|..] == es;
    assert ([c] + v)[1..] == v;
  }

  /** What encodeURIComponent leaves as it is. */
  predicate Unreserved(c: char) {
    'a' <= c <= 'z' || 'A' <= c <= 'Z' || '0' <= c <= '9' || c in "-_.!~*'()"
  }

  function HexDigit(n: nat): (c: char)
    requires n < 16
    ensures IsHex(c) && HexValue(c) == n
  {
    if n < 10 then ('0' as int + n) as char else ('A' as int + n - 10) as char
  }

  predicate IsBytes(v: string) {
    forall k :: 0 <= k < |v| ==> v[k] as int < 256
  }

  function Encode(v: string): string
    requires IsBytes(v)
  {
    if v == [] then ""
    else
      var n := v[0] as int;
      (if Unreserved(v[0]) then [v[0]] else ['%', HexDigit(n / 16), HexDigit(n % 16)]) + Encode(v[1..])
  }

  /** So every byte string has a spelling. */
  lemma {:induction false} EncodeSpells(v: string)
    requires IsBytes(v)
    ensures Spells(Encode(v), v)
  {
    if v != [] {
      EncodeSpells(v[1..]);
      var c := v[0];
      SpellOneMore(if Unreserved(c) then [c] else ['%', HexDigit(c as int / 16), HexDigit(c as int % 16)],
                   c, Encode(v[1..]), v[1..]);
      assert [c] + v[1..] == v;
    }
  }

  lemma DecodeSpelledChar(e: string, c: char, rest: string)
    requires SpellsChar(e, c)
    ensures Decode(e + rest) == [c] + Decode(rest)
    ensures '&' !in e && ' ' !in e
  {
    if |e| == 3 {
      assert (e + rest)[0] == e[0] && (e + rest)[1] == e[1] && (e + rest)[2] == e[2];
      assert (e + rest)[3..] == rest;
    } else {
      assert (e + rest)[0] == e[0] && (e + rest)[1..] == rest;
    }
  }

  lemma {:induction false} DecodeSpelled(e: string, v: string)
    requires Spells(e, v)
    ensures Decode(e) == v && '&' !in e && ' ' !in e
  {
    if v != [] {
      var k :| 0 <= k <= |e| && SpellsChar(e[..k], v[0]) && Spells(e[k..], v[1..]);
      DecodeSpelled(e[k..], v[1..]);
      DecodeSpelledChar(e[..k], v[0], e[k..]);
      assert e == e[..k] + e[k..];
    }
  }

  lemma ReadPair(p: Param)
    requires Sendable(p)
    ensures '&' !in Write(p) && ' ' !in Write(p)
    ensures DecodePair(PairOf(Write(p))) == Pair(p.name, Some(p.value))
  {
    DecodeSpelled(p.spelling, p.value);
    var w := Write(p);
    assert w[..|p.name|] == p.name && w[|p.name| + 1..] == p.spelling;
    IndexIsFirst(w, '=', |p.name|);
    assert PairOf(w) == Pair(p.name, Some(p.spelling));
    assert p.value[..|p.value|] == p.value;
    IndexIsFirst(p.value, NUL, |p.value|);
  }

  lemma SplitHead(w: string, rest: string, limit: nat)
    requires '&' !in w && limit > 0
    ensures Split(w + "&" + rest, limit) == [PairOf(w)] + Split(rest, limit - 1)
  {
    hide PairOf;
    var q := w + "&" + rest;
    assert q[..|w|] == w && q[|w|] == '&' && q[|w| + 1..] == rest;
    IndexIsFirst(q, '&', |w|);
  }

  lemma SplitLast(w: string, limit: nat)
    requires '&' !in w && ' ' !in w && limit > 0
    ensures Split(w, limit) == [PairOf(w)]
  {
    hide PairOf;
    assert w[..|w|] == w;
    IndexIsFirst(w, '&', |w|);
    IndexIsFirst(w, ' ', |w|);
  }

  lemma {:induction false} ReadAll(ps: seq<Param>, limit: nat)
    requires ps != [] && forall p | p in ps :: Sendable(p)
    ensures DecodeAll(Split(Join(ps), limit)) == Sent(ps)[..if |ps| <= limit then |ps| else limit]
  {
    hide PairOf, DecodePair, Write, Sendable, Split;
    var w := Write(ps[0]);
    if limit == 0 {
      NoneLeft(Join(ps));
    } else {
      ReadPair(ps[0]);
      if |ps| == 1 {
        SplitLast(w, limit);
        assert Sent(ps[1..]) == [];
      } else {
        SplitHead(w, Join(ps[1..]), limit);
        var more := Split(Join(ps[1..]), limit - 1);
        assert ([PairOf(w)] + more)[1..] == more;
        ReadAll(ps[1..], limit - 1);
      }
    }
  }

  lemma NoneLeft(q: string)
    ensures Split(q, 0) == []
  {
  }

  /** Whatever is sent is read back, '&' and '=' in values included; past the limit the rest is dropped. */
  lemma RoundTrip(ps: seq<Param>, limit: nat)
    requires forall p | p in ps :: Sendable(p)
    ensures Parameters(Join(ps), limit) == Sent(ps)[..if |ps| <= limit then |ps| else limit]
  {
    if ps != [] {
      ReadAll(ps, limit);
      assert |Write(ps[0])| > 0;
    }
  }

  // ----- a whole request

  /** Room for the query, with its terminator. */
  const URI_LEN: nat := 128

  /** As much of a query as the firmware keeps. */
  function Clip(q: string): string {
    if |q| < URI_LEN then q else q[..URI_LEN - 1]
  }

  /** The parameters of a request: what stands behind the first question mark. */
  function Requested(uri: string, limit: nat): seq<Pair> {
    var m := IndexOf(uri, '?');
    if m < |uri| then Parameters(Clip(uri[m + 1..]), limit) else []
  }

  lemma RequestRoundTrip(path: string, ps: seq<Param>, limit: nat)
    requires '?' !in path && (forall p | p in ps :: Sendable(p)) && |Join(ps)| < URI_LEN
    ensures Requested(path + "?" + Join(ps), limit) == Sent(ps)[..if |ps| <= limit then |ps| else limit]
  {
    hide Parameters, Sendable;
    var uri := path + "?" + Join(ps);
    IndexIsFirst(uri, '?', |path|);
    assert uri[|path| + 1..] == Join(ps);
    RoundTrip(ps, limit);
  }

  /** Decoding before cutting would not do: one value holding '&' would come out as two parameters. */
  lemma DecodingFirstIsWrong()
    ensures Parameters("a=b%26c", 16) == [Pair("a", Some("b&c"))]
    ensures Extract(Decode("a=b%26c"), 16) == [Pair("a", Some("b")), Pair("c", None)]
  {
    hide Split, Decode, PairOf, Spells;
    AmpersandSent();
    AmpersandDecoded();
    assert ("a=b" + "&") + "c" == "a=b&c";
    SplitHead("a=b", "c", 16);
    SplitLast("c", 15);
    PairsHere();
  }

  lemma AmpersandDecoded()
    ensures Decode("a=b%26c") == "a=b&c"
  {
    hide Decode, Spells;
    AmpersandSpelled();
    DecodeSpelled("b%26c", "b&c");
    DecodeSpelledChar("=", '=', "b%26c");
    assert "=" + "b%26c" == "=b%26c" && ['='] + "b&c" == "=b&c";
    DecodeSpelledChar("a", 'a', "=b%26c");
    assert "a" + "=b%26c" == "a=b%26c" && ['a'] + "=b&c" == "a=b&c";
  }

  lemma AmpersandSent()
    ensures Parameters("a=b%26c", 16) == [Pair("a", Some("b&c"))]
  {
    hide Spells, Parameters;
    var p := Param("a", "b&c", "b%26c");
    AmpersandSpelled();
    RoundTrip([p], 16);
    assert "a=" + "b%26c" == "a=b%26c";
    assert Join([p]) == "a=b%26c";
    assert Sent([p])[..1] == [Pair("a", Some("b&c"))];
  }

  lemma PairsHere()
    ensures PairOf("a=b") == Pair("a", Some("b")) && PairOf("c") == Pair("c", None)
  {
    IndexIsFirst("a=b", '=', 1);
    IndexIsFirst("c", '=', 1);
  }

  lemma NothingSpelled()
    ensures Spells("", "")
  {
  }

  lemma AmpersandSpelled()
    ensures Spells("b%26c", "b&c")
  {
    hide Spells;
    NothingSpelled();
    SpellOneMore("c", 'c', "", "");
    assert "c" + "" == "c" && ['c'] + "" == "c";
    SpellOneMore("%26", '&', "c", "c");
    assert "%26" + "c" == "%26c" && ['&'] + "c" == "&c";
    SpellOneMore("b", 'b', "%26c", "&c");
    assert "b" + "%26c" == "b%26c" && ['b'] + "&c" == "b&c";
    assert Spells("b%26c", "b&c");
  }

  // ----- the edges of decoding and cutting

  const HEX_DIGITS := "0123456789ABCDEF"
  const LOWER_DIGITS := "0123456789abcdef"

  /** A hex digit of either case stands for its place among the sixteen. */
  lemma HexDigitIs(n: nat)
    requires n < 16
    ensures IsHex(HEX_DIGITS[n]) && HexValue(HEX_DIGITS[n]) == n
    ensures IsHex(LOWER_DIGITS[n]) && HexValue(LOWER_DIGITS[n]) == n
  {
  }

  /** And no other character is one. */
  lemma OnlyHexDigits(c: char)
    ensures IsHex(c) <==> c in HEX_DIGITS || c in LOWER_DIGITS
  {
    if IsHex(c) {
      var n := HexValue(c);
      assert HEX_DIGITS[n] == c || LOWER_DIGITS[n] == c;
    }
    if c in HEX_DIGITS {
      var n :| 0 <= n < 16 && HEX_DIGITS[n] == c;
      HexDigitIs(n);
    }
    if c in LOWER_DIGITS {
      var n :| 0 <= n < 16 && LOWER_DIGITS[n] == c;
      HexDigitIs(n);
    }
  }

  /** A query ends at its first space, so the rest of a request line behind it is not read. */
  lemma SpaceEndsQuery(q: string, rest: string, limit: nat)
    requires q != [] && '&' !in q && ' ' !in q && '&' !in rest && limit > 0
    ensures Extract(q + " " + rest, limit) == Extract(q, limit) == [PairOf(q)]
  {
    hide PairOf;
    SplitLast(q, limit);
    var all := q + " " + rest;
    assert all[..|q|] == q && all[|q|] == ' ';
    IndexIsFirst(all, ' ', |q|);
    assert '&' !in all;
    assert all[..|all|] == all;
    IndexIsFirst(all, '&', |all|);
  }

  /** What a handler reads of a value stops before the first NUL that it decodes to. */
  lemma NulEndsValue(p: Pair)
    requires p.value.Some?
    ensures var v, d := DecodePair(p).value, Decode(p.value.value);
            && v.Some? && NUL !in v.value && |v.value| <= |d| && d[..|v.value|] == v.value
            && (|v.value| < |d| ==> d[|v.value|] == NUL)
  {
  }
}
