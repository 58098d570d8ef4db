/** The bytes that enter the hash chain of the extract (crates/core/src/hash.rs). */
module Preimage {
  import opened Basics

  type Byte = b: int | 0 <= b < 256
  type Bytes = seq<Byte>
  type Digest = d: Bytes | |d| == 32 witness seq(32, _ => 0)


  // ----- length-prefixed fields -----

  /** Four bytes, big-endian. */
  function U32Be(n: nat): (b: Bytes)
    requires n <= U32_MAX
    ensures |b| == 4
  {
    [n / 0x100_0000, n / 0x1_0000 % 0x100, n / 0x100 % 0x100, n % 0x100]
  }

  function ReadU32(b: Bytes): nat
    requires |b| == 4
  {
    b[0] as int * 0x100_0000 + b[1] as int * 0x1_0000 + b[2] as int * 0x100 + b[3] as int
  }

  /** A field as its length (saturated at the largest 32-bit number) and its bytes. */
  function EncodeField(f: Bytes): Bytes {
    U32Be(if |f| <= U32_MAX then |f| else U32_MAX) + f
  }

  function EncodeFields(fs: seq<Bytes>): Bytes {
    if fs == [] then [] else EncodeField(fs[0]) + EncodeFields(fs[1..])
  }

  /** The fields some bytes were made of, read from the front. */
  function DecodeFields(b: Bytes): Option<seq<Bytes>> {
    if b == [] then Some([])
    else if |b| < 4 then None
    else
      var n := ReadU32(b[..4]);
      if |b| - 4 < n then None
      else match DecodeFields(b[4 + n..])
        case None => None
        case Some(rest) => Some([b[4..4 + n]] + rest)
  }

  predicate Short(fs: seq<Bytes>) {
    forall i | 0 <= i < |fs| :: |fs[i]| <= U32_MAX
  }

  lemma U32RoundTrip(n: nat)
    requires n <= U32_MAX
    ensures ReadU32(U32Be(n)) == n
  {
    var a, b := n / 0x100, n / 0x1_0000;
    assert n == 0x100 * a + n % 0x100;
    HundredsOf(n, 0x100);
    HundredsOf(n, 0x1_0000);
  }

  lemma HundredsOf(n: nat, m: nat)
    requires m == 0x100 || m == 0x1_0000
    ensures n / m == 0x100 * (n / (0x100 * m)) + n / m % 0x100
  {
  }

  lemma {:induction false} FieldsRoundTrip(fs: seq<Bytes>)
    requires Short(fs)
    ensures DecodeFields(EncodeFields(fs)) == Some(fs)
  {
    if fs != [] {
      var f, rest := fs[0], EncodeFields(fs[1..]);
      var b := U32Be(|f|) + f + rest;
      assert EncodeFields(fs) == b;
      assert b[..4] == U32Be(|f|) && b[4..4 + |f|] == f && b[4 + |f|..] == rest;
      U32RoundTrip(|f|);
      FieldsRoundTrip(fs[1..]);
      assert fs == [f] + fs[1..];
    }
  }

  // ----- numbers as decimal text -----

  const MINUS: Byte := 45

  function Ascii(ds: seq<Digit>): (b: Bytes)
    ensures |b| == |ds|
  {
    seq(|ds|, i requires 0 <= i < |ds| => ds[i] as int + 48)
  }

  /** Rust's `to_string` of a signed integer. */
  function Decimal(n: int): (b: Bytes)
    ensures |b| >= 1
  {
    if n < 0 then [MINUS] + Ascii(Digits(-n)) else Ascii(Digits(n))
  }

  predicate AsciiDigits(b: Bytes) {
    b != [] && forall i | 0 <= i < |b| :: 48 <= b[i] < 58
  }

  function DigitValues(b: Bytes): seq<Digit>
    requires AsciiDigits(b)
  {
    seq(|b|, i requires 0 <= i < |b| => b[i] as int - 48)
  }

  function ReadDecimal(b: Bytes): Option<int> {
    if AsciiDigits(b) then Some(Value(DigitValues(b)))
    else if b != [] && b[0] == MINUS && AsciiDigits(b[1..]) then
      var n: int := Value(DigitValues(b[1..]));
      Some(-n)
    else None
  }

  lemma DecimalRoundTrip(n: int)
    ensures ReadDecimal(Decimal(n)) == Some(n)
  {
    var b := Ascii(Digits(Abs(n)));
    assert DigitValues(b) == Digits(Abs(n));
    ValueOfDigits(Abs(n));
    if n < 0 {
      assert Decimal(n)[1..] == b;
    }
  }

  // ----- the rows of the extract -----

  datatype Row = Row(
    ts: int, deviceId: Bytes, clientIp: Bytes, qname: Bytes, qtype: Bytes, category: Bytes, listSource: Bytes,
    signalsJson: Bytes, verdict: Bytes, decidedBy: Bytes, ruleId: Option<int>,
    processJson: Bytes, server: Bytes, cnameTarget: Bytes)

  function RuleText(r: Option<int>): Bytes {
    match r case Some(n) => Decimal(n) case None => []
  }

  /** The fields every row has, in their fixed order. */
  function BaseFields(r: Row): seq<Bytes> {
    [Decimal(r.ts), r.deviceId, r.clientIp, r.qname, r.qtype, r.category, r.listSource, r.signalsJson,
     r.verdict, r.decidedBy, RuleText(r.ruleId)]
  }

  /** The optional fields: each one there brings the ones before it, even empty. */
  function OptionalFields(r: Row): seq<Bytes> {
    if r.cnameTarget != [] then [r.processJson, r.server, r.cnameTarget]
    else if r.server != [] then [r.processJson, r.server]
    else if r.processJson != [] then [r.processJson]
    else []
  }

  function RowPreimage(prev: Digest, r: Row): Bytes {
    prev + EncodeFields(BaseFields(r) + OptionalFields(r))
  }

  predicate ShortRow(r: Row) {
    Short(BaseFields(r) + OptionalFields(r))
  }

  /** Feeds the hasher some fields, one after another. */
  method Feed(fed: Bytes, fields: seq<Bytes>) returns (now: Bytes)
    ensures now == fed + EncodeFields(fields)
  {
    now := fed;
    for i := 0 to |fields|
      invariant now + EncodeFields(fields[i..]) == fed + EncodeFields(fields)
    {
      assert fields[i..][1..] == fields[i + 1..];
      now := now + EncodeField(fields[i]);
    }
  }

  /** One row's hash: the previous hash, the fields every row has, and then the optional ones. */
  method ChainHash(sha: Bytes -> Digest, prev: Digest, r: Row) returns (h: Digest)
    ensures h == sha(RowPreimage(prev, r))
  {
    var fed := Feed(prev, BaseFields(r));
    var opcionales: seq<Bytes> := [];
    if r.cnameTarget != [] {
      opcionales := opcionales + [r.processJson, r.server, r.cnameTarget];
    } else if r.server != [] {
      opcionales := opcionales + [r.processJson, r.server];
    } else if r.processJson != [] {
      opcionales := opcionales + [r.processJson];
    }
    fed := Feed(fed, opcionales);
    EncodeConcat(BaseFields(r), opcionales);
    assert opcionales == OptionalFields(r);
    assert fed == prev + (EncodeFields(BaseFields(r)) + EncodeFields(opcionales));
    h := sha(fed);
  }

  lemma {:induction false} EncodeConcat(a: seq<Bytes>, b: seq<Bytes>)
    ensures EncodeFields(a + b) == EncodeFields(a) + EncodeFields(b)
  {
    if a == [] {
      assert a + b == b;
    } else {
      assert (a + b)[1..] == a[1..] + b;
      EncodeConcat(a[1..], b);
    }
  }

  function ReadRule(b: Bytes): Option<Option<int>> {
    if b == [] then Some(None)
    else match ReadDecimal(b) case Some(n) => Some(Some(n)) case None => None
  }

  /** The row some fields were: their number says which optional ones are there. */
  function RowOf(f: seq<Bytes>): Option<Row> {
    if !(11 <= |f| <= 14) then None
    else match (ReadDecimal(f[0]), ReadRule(f[10]))
      case (Some(ts), Some(rule)) =>
        Some(Row(ts, f[1], f[2], f[3], f[4], f[5], f[6], f[7], f[8], f[9], rule,
                 if |f| > 11 then f[11] else [], if |f| > 12 then f[12] else [], if |f| > 13 then f[13] else []))
      case _ => None
  }

  function DecodeRow(b: Bytes): Option<(Digest, Row)> {
    if |b| < 32 then None
    else match DecodeFields(b[32..])
      case None => None
      case Some(f) => match RowOf(f) case Some(r) => Some((b[..32], r)) case None => None
  }

  lemma RowOfFields(r: Row)
    ensures RowOf(BaseFields(r) + OptionalFields(r)) == Some(r)
  {
    DecimalRoundTrip(r.ts);
    if r.ruleId.Some? {
      DecimalRoundTrip(r.ruleId.value);
    }
  }

  /** From the preimage one recovers the previous hash and every field, empty ones included. */
  lemma RowRoundTrip(prev: Digest, r: Row)
    requires ShortRow(r)
    ensures DecodeRow(RowPreimage(prev, r)) == Some((prev, r))
  {
    var f := BaseFields(r) + OptionalFields(r);
    var b := RowPreimage(prev, r);
    assert b[..32] == prev && b[32..] == EncodeFields(f);
    FieldsRoundTrip(f);
    RowOfFields(r);
  }

  /** So two rows with one preimage are the same row after the same row. */
  lemma RowInjective(p: Digest, r: Row, q: Digest, s: Row)
    requires ShortRow(r) && ShortRow(s) && RowPreimage(p, r) == RowPreimage(q, s)
    ensures p == q && r == s
  {
    RowRoundTrip(p, r);
    RowRoundTrip(q, s);
  }

  // ----- the forms rows had before each optional field existed -----

  /** Before the program was known: eleven fields. */
  function Preimage11(prev: Digest, r: Row): Bytes { prev + EncodeFields(BaseFields(r)) }

  /** With the program, only when there is one. */
  function Preimage12(prev: Digest, r: Row): Bytes {
    if r.processJson == [] then Preimage11(prev, r)
    else prev + EncodeFields(BaseFields(r)) + EncodeField(r.processJson)
  }

  /** With the server, only when there is one, after the program. */
  function Preimage13(prev: Digest, r: Row): Bytes {
    if r.server == [] then Preimage12(prev, r)
    else prev + EncodeFields(BaseFields(r)) + EncodeField(r.processJson) + EncodeField(r.server)
  }

  /** A row without a field encodes as it did before the field existed, so older chains verify. */
  lemma OlderRowsEncodeAsBefore(prev: Digest, r: Row)
    ensures r.cnameTarget == [] ==> RowPreimage(prev, r) == Preimage13(prev, r)
    ensures r.cnameTarget == [] && r.server == [] ==> RowPreimage(prev, r) == Preimage12(prev, r)
    ensures OptionalFields(r) == [] ==> RowPreimage(prev, r) == Preimage11(prev, r)
  {
    EncodeConcat(BaseFields(r), OptionalFields(r));
    EncodeConcat([r.processJson], [r.server]);
    assert EncodeFields([r.processJson]) == EncodeField(r.processJson);
    assert EncodeFields([r.server]) == EncodeField(r.server);
    assert [r.processJson] + [r.server] == [r.processJson, r.server];
  }

  // ----- why the fields must be shorter than 2^32 bytes -----

  function Fill(n: nat, b: Byte): Bytes { seq(n, _ => b) }

  /** A byte more in the long field is a byte less in the next. */
  lemma LongThenShort(n: Bytes, tail: Bytes)
    requires |n| == U32_MAX && |tail| == 16_843_008
    ensures EncodeField(n + [1]) + EncodeField(tail) == EncodeField(n) + EncodeField([0] + tail)
  {
    assert U32Be(16_843_008) == [1, 1, 1, 0] && U32Be(16_843_009) == [1, 1, 1, 1];
    Carried(U32Be(U32_MAX), n, [1], U32Be(16_843_008), U32Be(16_843_009), [0], tail);
  }

  lemma Carried(p: Bytes, n: Bytes, x: Bytes, q: Bytes, r: Bytes, y: Bytes, tail: Bytes)
    requires x + q == r + y
    ensures (p + (n + x)) + (q + tail) == (p + n) + (r + (y + tail))
  {
    assert (p + (n + x)) + (q + tail) == p + n + (x + q) + tail;
    assert (p + n) + (r + (y + tail)) == p + n + (r + y) + tail;
  }

  /** A name of 2^32 bytes: its prefix says one byte less, and two rows share a preimage. */
  lemma LongFieldsCollide(prev: Digest, r: Row)
    ensures exists s, t: Row :: s != t && RowPreimage(prev, s) == RowPreimage(prev, t)
  {
    // The type's length is written as the bytes 1, 1, 1, 0, and one more than it as 1, 1, 1, 1.
    var n := Fill(U32_MAX, 97);
    var tail := Fill(16_843_008, 97);
    var s := r.(qname := n + [1], qtype := tail);
    var t := r.(qname := n, qtype := [0] + tail);
    LongThenShort(n, tail);
    TwoFields(prev, s);
    TwoFields(prev, t);
    assert s.qname != t.qname;
  }

  /** A preimage around its name and type. */
  lemma TwoFields(prev: Digest, r: Row)
    ensures RowPreimage(prev, r)
         == prev + EncodeFields([Decimal(r.ts), r.deviceId, r.clientIp])
          + (EncodeField(r.qname) + EncodeField(r.qtype))
          + EncodeFields([r.category, r.listSource, r.signalsJson, r.verdict, r.decidedBy, RuleText(r.ruleId)]
                         + OptionalFields(r))
  {
    var a := [Decimal(r.ts), r.deviceId, r.clientIp];
    var c := [r.category, r.listSource, r.signalsJson, r.verdict, r.decidedBy, RuleText(r.ruleId)] + OptionalFields(r);
    assert BaseFields(r) + OptionalFields(r) == a + ([r.qname, r.qtype] + c);
    Around(a, r.qname, r.qtype, c);
    Regrouped(prev, EncodeFields(a), EncodeField(r.qname) + EncodeField(r.qtype), EncodeFields(c));
  }

  lemma Around(a: seq<Bytes>, x: Bytes, y: Bytes, c: seq<Bytes>)
    ensures EncodeFields(a + ([x, y] + c))
         == EncodeFields(a) + ((EncodeField(x) + EncodeField(y)) + EncodeFields(c))
  {
    EncodeConcat(a, [x, y] + c);
    EncodeConcat([x, y], c);
    EncodeConcat([x], [y]);
    assert [x] + [y] == [x, y];
    assert EncodeFields([x]) == EncodeField(x) && EncodeFields([y]) == EncodeField(y);
  }

  lemma Regrouped(a: Bytes, b: Bytes, c: Bytes, d: Bytes)
    ensures a + (b + (c + d)) == a + b + c + d
  {
  }

  // ----- hexadecimal form -----

  function HexDigit(n: int): (c: Byte)
    requires 0 <= n < 16
  {
    if n < 10 then 48 + n else 87 + n
  }

  /** A hexadecimal digit's value, upper case too. */
  function HexValue(c: Byte): Option<nat> {
    if 48 <= c < 58 then Some(c - 48)
    else if 97 <= c < 103 then Some(c - 87)
    else if 65 <= c < 71 then Some(c - 55)
    else None
  }

  /** Rust's `u8::from_str_radix(pair, 16)`: a plus sign is allowed in front. */
  function PairValue(a: Byte, b: Byte): (r: Option<Byte>) {
    if a == 43 then (match HexValue(b) case Some(v) => Some(v) case None => None)
    else match (HexValue(a), HexValue(b))
      case (Some(h), Some(l)) => Some(16 * h + l)
      case _ => None
  }

  /** Lowercase hexadecimal form, two characters a byte. */
  function ToHex(d: Bytes): (s: Bytes)
    ensures |s| == 2 * |d|
  {
    if d == [] then [] else [HexDigit(d[0] / 16), HexDigit(d[0] % 16)] + ToHex(d[1..])
  }

  function FromPairs(s: Bytes): Option<Bytes>
    requires |s| % 2 == 0
  {
    if s == [] then Some([])
    else match (PairValue(s[0], s[1]), FromPairs(s[2..]))
      case (Some(b), Some(rest)) => Some([b] + rest)
      case _ => None
  }

  lemma {:induction false} FromPairsLength(s: Bytes)
    requires |s| % 2 == 0
    ensures FromPairs(s).Some? ==> |FromPairs(s).value| * 2 == |s|
  {
    if s != [] { FromPairsLength(s[2..]); }
  }

  function FromHex(s: Bytes): Option<Digest> {
    if |s| != 64 then None
    else
      FromPairsLength(s);
      match FromPairs(s) case Some(d) => Some(d) case None => None
  }

  function Prepend(out: Bytes, rest: Option<Bytes>): Option<Bytes> {
    match rest case Some(b) => Some(out + b) case None => None
  }

  method ParseHex(s: Bytes) returns (r: Option<Digest>)
    ensures r == FromHex(s)
  {
    if |s| != 64 { return None; }
    var out: Bytes := [];
    assert s[0..] == s;
    if FromPairs(s).Some? { assert [] + FromPairs(s).value == FromPairs(s).value; }
    for i := 0 to 32
      invariant |out| == i
      invariant FromPairs(s) == Prepend(out, FromPairs(s[2 * i..]))
    {
      assert s[2 * i..][2..] == s[2 * (i + 1)..];
      match PairValue(s[2 * i], s[2 * i + 1]) {
        case None => return None;
        case Some(b) =>
          ghost var rest := FromPairs(s[2 * (i + 1)..]);
          if rest.Some? { assert out + ([b] + rest.value) == (out + [b]) + rest.value; }
          out := out + [b];
      }
    }
    assert s[64..] == [] && out + [] == out;
    r := Some(out);
  }

  predicate LowerHex(c: Byte) { 48 <= c < 58 || 97 <= c < 103 }

  lemma {:induction false} PairsRoundTrip(d: Bytes)
    ensures FromPairs(ToHex(d)) == Some(d)
  {
    if d != [] {
      PairsRoundTrip(d[1..]);
      assert ToHex(d)[2..] == ToHex(d[1..]);
      assert d == [d[0]] + d[1..];
    }
  }

  lemma HexRoundTrip(d: Digest)
    ensures FromHex(ToHex(d)) == Some(d)
  {
    PairsRoundTrip(d);
  }

  /** The other way round only for lowercase digits: capitals and a plus sign are read too. */
  lemma {:induction false} HexCanonical(s: Bytes)
    requires |s| % 2 == 0 && FromPairs(s).Some?
    ensures ToHex(FromPairs(s).value) == s <==> forall i | 0 <= i < |s| :: LowerHex(s[i])
  {
    if s != [] {
      HexCanonical(s[2..]);
      PairCanonical(s[0], s[1]);
      TwoAndRest(s, PairValue(s[0], s[1]).value, FromPairs(s[2..]).value);
      AllAfterTwo(s);
    }
  }

  lemma PairCanonical(a: Byte, b: Byte)
    requires PairValue(a, b).Some?
    ensures var v := PairValue(a, b).value;
      HexDigit(v / 16) == a && HexDigit(v % 16) == b <==> LowerHex(a) && LowerHex(b)
  {
  }

  lemma TwoAndRest(s: Bytes, v: Byte, rest: Bytes)
    requires |s| >= 2
    ensures ToHex([v] + rest) == s <==> HexDigit(v / 16) == s[0] && HexDigit(v % 16) == s[1] && ToHex(rest) == s[2..]
  {
    assert ([v] + rest)[1..] == rest;
    assert ToHex([v] + rest)[2..] == ToHex(rest);
    assert s == [s[0], s[1]] + s[2..];
  }

  lemma AllAfterTwo(s: Bytes)
    requires |s| >= 2
    ensures (forall i | 0 <= i < |s| :: LowerHex(s[i]))
       <==> LowerHex(s[0]) && LowerHex(s[1]) && forall i | 0 <= i < |s[2..]| :: LowerHex(s[2..][i])
  {
    assert forall i | 2 <= i < |s| :: s[i] == s[2..][i - 2];
    assert forall i | 0 <= i < |s[2..]| :: s[2..][i] == s[i + 2];
  }
}
