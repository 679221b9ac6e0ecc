/** ECMAScript's `encodeURIComponent` (section 19.2.6.5 of ECMA-262): every
    character outside the unreserved set becomes the percent-escaped bytes of
    its UTF-8 encoding. A Dafny `char` is a Unicode scalar value, so the
    lone-surrogate error of the JavaScript function cannot arise here.
    `Decode` is a left inverse, and `QueryParam` reads a parameter back out of
    a URL's query string. */
module Uri {

  import opened Js

  type Byte = b: int | 0 <= b < 256

  /** The characters `encodeURIComponent` leaves as they are. */
  predicate IsUnreserved(c: char) {
    ('A' <= c <= 'Z') || ('a' <= c <= 'z') || ('0' <= c <= '9')
    || c == '-' || c == '_' || c == '.' || c == '!' || c == '~'
    || c == '*' || c == '\'' || c == '(' || c == ')'
  }

  /** The characters an encoded component can consist of. */
  predicate IsEncodedChar(c: char) {
    IsUnreserved(c) || c == '%'
  }

  /** An upper-case hexadecimal digit. */
  function HexDigit(n: nat): (c: char)
    requires n < 16
    ensures ('0' <= c <= '9') || ('A' <= c <= 'F')
  {
    if n < 10 then ('0' as int + n) as char else ('A' as int + n - 10) as char
  }

  /** The value of a hexadecimal digit of either case. */
  function HexValue(c: char): Option<nat> {
    if '0' <= c <= '9' then Some(c as int - '0' as int)
    else if 'A' <= c <= 'F' then Some(c as int - 'A' as int + 10)
    else if 'a' <= c <= 'f' then Some(c as int - 'a' as int + 10)
    else None
  }

  lemma HexRoundTrip(n: nat)
    requires n < 16
    ensures HexValue(HexDigit(n)) == Some(n)
  {
  }

  /** The UTF-8 encoding of a Unicode scalar value. */
  function Utf8(c: char): (bs: seq<Byte>)
    ensures 1 <= |bs| <= 4
    ensures |bs| == 1 <==> c as int < 0x80
  {
    var cp := c as int;
    if cp < 0x80 then [cp]
    else if cp < 0x800 then [0xC0 + cp / 64, 0x80 + cp % 64]
    else if cp < 0x10000 then [0xE0 + cp / 4096, 0x80 + (cp / 64) % 64, 0x80 + cp % 64]
    else [0xF0 + cp / 262144, 0x80 + (cp / 4096) % 64, 0x80 + (cp / 64) % 64, 0x80 + cp % 64]
  }

  /** `%XY` for one byte. */
  function PercentByte(b: Byte): (s: string)
    ensures |s| == 3 && s[0] == '%'
  {
    ['%', HexDigit(b / 16), HexDigit(b % 16)]
  }

  function PercentBytes(bs: seq<Byte>): (s: string)
    ensures |s| == 3 * |bs|
  {
    if bs == [] then [] else PercentByte(bs[0]) + PercentBytes(bs[1..])
  }

  function EncodeChar(c: char): (s: string)
    ensures s != []
  {
    if IsUnreserved(c) then [c] else PercentBytes(Utf8(c))
  }

  /** `encodeURIComponent(s)`. */
  function Encode(s: string): string {
    if s == [] then [] else EncodeChar(s[0]) + Encode(s[1..])
  }

  /** Escaped bytes consist of `%` and upper-case hexadecimal digits. */
  lemma {:induction false} PercentBytesAlphabet(bs: seq<Byte>)
    ensures forall i :: 0 <= i < |PercentBytes(bs)| ==> IsEncodedChar(PercentBytes(bs)[i])
  {
    if bs != [] {
      PercentBytesAlphabet(bs[1..]);
      var p := PercentByte(bs[0]);
      var t := PercentBytes(bs[1..]);
      assert forall i :: 0 <= i < |p| ==> IsEncodedChar(p[i]);
      assert PercentBytes(bs) == p + t;
    }
  }

  /** An encoded component consists of unreserved characters and escapes only. */
  lemma {:induction false} EncodeAlphabet(s: string)
    ensures forall i :: 0 <= i < |Encode(s)| ==> IsEncodedChar(Encode(s)[i])
  {
    if s != [] {
      EncodeAlphabet(s[1..]);
      PercentBytesAlphabet(Utf8(s[0]));
      var e := EncodeChar(s[0]);
      var t := Encode(s[1..]);
      assert forall i :: 0 <= i < |e| ==> IsEncodedChar(e[i]);
      assert Encode(s) == e + t;
    }
  }

  lemma {:induction false} EncodeAppend(a: string, b: string)
    ensures Encode(a + b) == Encode(a) + Encode(b)
  {
    if a == [] {
      assert a + b == b;
    } else {
      assert (a + b)[0] == a[0] && (a + b)[1..] == a[1..] + b;
      EncodeAppend(a[1..], b);
    }
  }

  /** An encoded component never holds a query-string delimiter, so it can be
      placed after `=` in a query and read back unambiguously. */
  lemma EncodedHasNoDelimiters(s: string)
    ensures '&' !in Encode(s) && '=' !in Encode(s) && '?' !in Encode(s) && '#' !in Encode(s)
  {
    EncodeAlphabet(s);
  }

  // ------------------------------------------------------------ decoding

  /** The byte written as `%XY` at position `i` of `s`. */
  function ReadByteAt(s: string, i: nat): Option<Byte> {
    if i + 3 > |s| || s[i] != '%' then None
    else match (HexValue(s[i + 1]), HexValue(s[i + 2]))
      case (Some(h), Some(l)) => if h < 16 && l < 16 then Some(h * 16 + l) else None
      case _ => None
  }

  /** The number of bytes of a UTF-8 sequence with lead byte `b`; 0 when `b`
      cannot lead one. */
  function Utf8Length(b: Byte): nat {
    if b < 0x80 then 1
    else if b < 0xC0 then 0
    else if b < 0xE0 then 2
    else if b < 0xF0 then 3
    else if b < 0xF8 then 4
    else 0
  }

  /** The payload bits of a lead byte. */
  function LeadBits(b: Byte): int {
    if b < 0x80 then b
    else if b < 0xE0 then b - 0xC0
    else if b < 0xF0 then b - 0xE0
    else b - 0xF0
  }

  /** Appends six payload bits per continuation byte. */
  function Combine(v: int, xs: seq<int>): int
    decreases |xs|
  {
    if xs == [] then v else Combine(v * 64 + xs[0], xs[1..])
  }

  /** The payload bits of the continuation bytes `k`..`n-1` of the escaped
      sequence starting at position 0 of `s`. */
  function ReadContinuations(s: string, k: nat, n: nat): Option<seq<int>>
    decreases n - k
  {
    if k >= n then Some([])
    else match ReadByteAt(s, 3 * k)
      case None => None
      case Some(b) =>
        if !(0x80 <= b < 0xC0) then None
        else match ReadContinuations(s, k + 1, n)
          case None => None
          case Some(xs) => Some([b - 0x80] + xs)
  }

  /** A scalar value as a character, when it is one. */
  function ToChar(cp: int): Option<char> {
    if (0 <= cp < 0xD800) || (0xE000 <= cp < 0x11_0000) then Some(cp as char) else None
  }

  /** The character and the number of encoded characters of the escaped UTF-8
      sequence at the start of `s`. */
  function ReadEscapedChar(s: string): (r: Option<(char, nat)>)
    ensures r.Some? ==> 3 <= r.value.1 <= |s|
  {
    match ReadByteAt(s, 0)
    case None => None
    case Some(b0) =>
      var n := Utf8Length(b0);
      if n == 0 || |s| < 3 * n then None
      else match ReadContinuations(s, 1, n)
        case None => None
        case Some(xs) =>
          match ToChar(Combine(LeadBits(b0), xs))
          case None => None
          case Some(c) => Some((c, 3 * n))
  }

  /** Undoes `Encode`: escapes are read back as UTF-8, everything else is kept. */
  function Decode(s: string): Option<string>
    decreases |s|
  {
    if s == [] then Some([])
    else if s[0] != '%' then
      match Decode(s[1..])
      case Some(t) => Some([s[0]] + t)
      case None => None
    else
      match ReadEscapedChar(s)
      case None => None
      case Some((c, n)) =>
        match Decode(s[n..])
        case Some(t) => Some([c] + t)
        case None => None
  }

  /** An escape reads back as its byte. */
  lemma PercentByteReads(b: Byte, t: string)
    ensures ReadByteAt(PercentByte(b) + t, 0) == Some(b)
  {
    var s := PercentByte(b) + t;
    assert s[0] == '%' && s[1] == HexDigit(b / 16) && s[2] == HexDigit(b % 16);
    HexRoundTrip(b / 16);
    HexRoundTrip(b % 16);
  }

  /** Reading past a three-character prefix. */
  lemma ReadByteAtShift(p: string, t: string, j: nat)
    requires |p| == 3
    ensures ReadByteAt(p + t, j + 3) == ReadByteAt(t, j)
  {
    var s := p + t;
    if j + 3 <= |t| {
      assert s[j + 3] == t[j] && s[j + 4] == t[j + 1] && s[j + 5] == t[j + 2];
    }
  }

  /** The escape of byte `k` sits at position `3 * k` and reads back as that byte. */
  lemma {:induction false} PercentBytesAt(bs: seq<Byte>, rest: string, k: nat)
    requires k < |bs|
    ensures ReadByteAt(PercentBytes(bs) + rest, 3 * k) == Some(bs[k])
  {
    var t := PercentBytes(bs[1..]) + rest;
    assert PercentBytes(bs) + rest == PercentByte(bs[0]) + t;
    if k == 0 {
      PercentByteReads(bs[0], t);
    } else {
      PercentBytesAt(bs[1..], rest, k - 1);
      ReadByteAtShift(PercentByte(bs[0]), t, 3 * (k - 1));
    }
  }

  /** The payload bits of continuation bytes. */
  function Payloads(bs: seq<Byte>): seq<int> {
    seq(|bs|, i requires 0 <= i < |bs| => bs[i] as int - 0x80)
  }

  /** Continuation bytes `k`.. of an escaped sequence read back as their payloads. */
  lemma {:induction false} ReadContinuationsOf(bs: seq<Byte>, rest: string, k: nat)
    requires 1 <= k <= |bs|
    requires forall j :: 1 <= j < |bs| ==> 0x80 <= bs[j] < 0xC0
    ensures ReadContinuations(PercentBytes(bs) + rest, k, |bs|) == Some(Payloads(bs[k..]))
    decreases |bs| - k
  {
    if k < |bs| {
      var s := PercentBytes(bs) + rest;
      PercentBytesAt(bs, rest, k);
      ReadContinuationsOf(bs, rest, k + 1);
      assert ReadContinuations(s, k, |bs|) == Some([bs[k] as int - 0x80] + Payloads(bs[k + 1..]));
      PayloadsCons(bs, k);
    } else {
      assert Payloads(bs[k..]) == [];
    }
  }

  /** The payloads of `bs[k..]` are `bs[k]`'s followed by those of `bs[k + 1..]`. */
  lemma PayloadsCons(bs: seq<Byte>, k: nat)
    requires k < |bs|
    ensures Payloads(bs[k..]) == [bs[k] as int - 0x80] + Payloads(bs[k + 1..])
  {
    assert bs[k..][1..] == bs[k + 1..];
  }

  lemma DivUnique64(x: int, q: int, r: int)
    requires 0 <= r < 64 && x == q * 64 + r
    ensures x / 64 == q && x % 64 == r
  {
  }

  /** The UTF-8 bytes of a character: the lead byte announces their number, the
      others are continuation bytes, and their payload bits make up the scalar value. */
  lemma Utf8WellFormed(c: char)
    ensures Utf8Length(Utf8(c)[0]) == |Utf8(c)|
    ensures forall j :: 1 <= j < |Utf8(c)| ==> 0x80 <= Utf8(c)[j] < 0xC0
    ensures Combine(LeadBits(Utf8(c)[0]), Payloads(Utf8(c)[1..])) == c as int
  {
    var cp := c as int;
    if 0x80 <= cp < 0x800 {
      Utf8TwoBytes(c);
    } else if 0x800 <= cp < 0x10000 {
      Utf8ThreeBytes(c);
    } else if 0x10000 <= cp {
      Utf8FourBytes(c);
    }
  }

  /** Two bytes, for U+0080 to U+07FF. */
  lemma Utf8TwoBytes(c: char)
    requires 0x80 <= c as int < 0x800
    ensures Utf8Length(Utf8(c)[0]) == |Utf8(c)|
    ensures forall j :: 1 <= j < |Utf8(c)| ==> 0x80 <= Utf8(c)[j] < 0xC0
    ensures Combine(LeadBits(Utf8(c)[0]), Payloads(Utf8(c)[1..])) == c as int
  {
    var cp := c as int;
    var bs := Utf8(c);
    var q1 := cp / 64;
    assert cp == q1 * 64 + cp % 64;
    assert bs == [0xC0 + q1, 0x80 + cp % 64];
    assert Payloads(bs[1..]) == [cp % 64];
    assert Combine(q1, [cp % 64]) == Combine(cp, []);
  }

  /** Three bytes, for U+0800 to U+FFFF. */
  lemma Utf8ThreeBytes(c: char)
    requires 0x800 <= c as int < 0x10000
    ensures Utf8Length(Utf8(c)[0]) == |Utf8(c)|
    ensures forall j :: 1 <= j < |Utf8(c)| ==> 0x80 <= Utf8(c)[j] < 0xC0
    ensures Combine(LeadBits(Utf8(c)[0]), Payloads(Utf8(c)[1..])) == c as int
  {
    var cp := c as int;
    var bs := Utf8(c);
    var q1 := cp / 64;
    var q2 := q1 / 64;
    assert cp == q1 * 64 + cp % 64;
    assert q1 == q2 * 64 + q1 % 64;
    assert cp / 4096 == q2 by {
      assert cp == q2 * 4096 + (q1 % 64) * 64 + cp % 64;
    }
    assert bs == [0xE0 + q2, 0x80 + q1 % 64, 0x80 + cp % 64];
    assert Payloads(bs[1..]) == [q1 % 64, cp % 64];
    assert Combine(q2, [q1 % 64, cp % 64]) == Combine(q1, [cp % 64]) by {
      assert [q1 % 64, cp % 64][1..] == [cp % 64];
    }
    assert Combine(q1, [cp % 64]) == Combine(cp, []);
  }

  /** Four bytes, above U+FFFF. */
  lemma Utf8FourBytes(c: char)
    requires 0x10000 <= c as int
    ensures Utf8Length(Utf8(c)[0]) == |Utf8(c)|
    ensures forall j :: 1 <= j < |Utf8(c)| ==> 0x80 <= Utf8(c)[j] < 0xC0
    ensures Combine(LeadBits(Utf8(c)[0]), Payloads(Utf8(c)[1..])) == c as int
  {
    var cp := c as int;
    var bs := Utf8(c);
    var q1 := cp / 64;
    var q2 := q1 / 64;
    var q3 := q2 / 64;
    assert cp == q1 * 64 + cp % 64;
    assert q1 == q2 * 64 + q1 % 64;
    assert q2 == q3 * 64 + q2 % 64;
    assert cp / 4096 == q2 by {
      assert cp == q2 * 4096 + (q1 % 64) * 64 + cp % 64;
    }
    assert cp / 262144 == q3 by {
      assert cp == q3 * 262144 + (q2 % 64) * 4096 + (q1 % 64) * 64 + cp % 64;
    }
    assert bs == [0xF0 + q3, 0x80 + q2 % 64, 0x80 + q1 % 64, 0x80 + cp % 64];
    assert Payloads(bs[1..]) == [q2 % 64, q1 % 64, cp % 64];
    assert Combine(q3, [q2 % 64, q1 % 64, cp % 64]) == Combine(q2, [q1 % 64, cp % 64]) by {
      assert [q2 % 64, q1 % 64, cp % 64][1..] == [q1 % 64, cp % 64];
    }
    assert Combine(q2, [q1 % 64, cp % 64]) == Combine(q1, [cp % 64]) by {
      assert [q1 % 64, cp % 64][1..] == [cp % 64];
    }
    assert Combine(q1, [cp % 64]) == Combine(cp, []);
  }

  /** The escapes written for one reserved character read back as that character. */
  lemma ReadEncodedChar(c: char, rest: string)
    requires !IsUnreserved(c)
    ensures ReadEscapedChar(EncodeChar(c) + rest) == Some((c, |EncodeChar(c)|))
  {
    var bs := Utf8(c);
    var s := EncodeChar(c) + rest;
    assert s == PercentBytes(bs) + rest;
    PercentBytesAt(bs, rest, 0);
    Utf8WellFormed(c);
    ReadContinuationsOf(bs, rest, 1);
    assert bs[1..] == bs[1..];
  }

  /** Decoding reads one encoded character off the front of any text. */
  lemma DecodeEncodedChar(c: char, rest: string)
    ensures Decode(EncodeChar(c) + rest) ==
      match Decode(rest)
      case Some(t) => Some([c] + t)
      case None => None
  {
    var e := EncodeChar(c) + rest;
    if IsUnreserved(c) {
      assert e[0] == c && e[1..] == rest;
    } else {
      ReadEncodedChar(c, rest);
      assert e[0] == '%';
      assert e[|EncodeChar(c)|..] == rest;
    }
  }

  /** Decoding an encoded string gives the string back. */
  lemma {:induction false} DecodeEncode(s: string)
    ensures Decode(Encode(s)) == Some(s)
  {
    if s != [] {
      var e := Encode(s[1..]);
      DecodeEncode(s[1..]);
      assert Encode(s) == EncodeChar(s[0]) + e;
      DecodeEncodedChar(s[0], e);
      assert [s[0]] + s[1..] == s;
    }
  }

  /** `Encode` is injective: distinct texts give distinct components. */
  lemma EncodeInjective(a: string, b: string)
    requires Encode(a) == Encode(b)
    ensures a == b
  {
    DecodeEncode(a);
    DecodeEncode(b);
  }

  // --------------------------------------------------------- query string

  /** Everything after the first `?` of a URL, or "" when there is none. */
  function QueryString(url: string): string {
    if '?' in url then url[FirstIndex(url, '?') + 1..] else ""
  }

  /** The value of the first `key=value` pair, in a `&`-separated query. */
  function LookupParam(query: string, key: string): Option<string>
    decreases |query|
  {
    var field := if '&' in query then query[..FirstIndex(query, '&')] else query;
    if |key| + 1 <= |field| && field[..|key| + 1] == key + "=" then Some(field[|key| + 1..])
    else if '&' in query then LookupParam(query[FirstIndex(query, '&') + 1..], key)
    else None
  }

  /** A query string written out from its fields: `k1=v1&k2=v2&…`. */
  function Join(fields: seq<(string, string)>): string
    decreases |fields|
  {
    if |fields| == 0 then ""
    else if |fields| == 1 then fields[0].0 + "=" + fields[0].1
    else fields[0].0 + "=" + fields[0].1 + "&" + Join(fields[1..])
  }

  /** The value of the first field named `key`. */
  function FirstValue(fields: seq<(string, string)>, key: string): Option<string>
    decreases |fields|
  {
    if |fields| == 0 then None
    else if fields[0].0 == key then Some(fields[0].1)
    else FirstValue(fields[1..], key)
  }

  /** The first field named `key` sits at position `i`: its value is the one found. */
  lemma {:induction false} FirstValueAt(fields: seq<(string, string)>, key: string, i: nat)
    requires i < |fields| && fields[i].0 == key
    requires forall j :: 0 <= j < i ==> fields[j].0 != key
    ensures FirstValue(fields, key) == Some(fields[i].1)
    decreases i
  {
    if i > 0 {
      assert fields[0].0 != key;
      FirstValueAt(fields[1..], key, i - 1);
    }
  }

  /** No name holds `&` or `=`, and no value holds `&`: what encoding guarantees. */
  predicate WellFormedFields(fields: seq<(string, string)>) {
    forall i :: 0 <= i < |fields| ==>
      '&' !in fields[i].0 && '=' !in fields[i].0 && '&' !in fields[i].1
  }

  /** Reading a parameter back out of a written-out query gives the value of
      the first field with that name, and nothing when there is none. */
  lemma {:induction false} LookupJoin(fields: seq<(string, string)>, key: string)
    requires WellFormedFields(fields) && '=' !in key
    ensures LookupParam(Join(fields), key) == FirstValue(fields, key)
    decreases |fields|
  {
    if |fields| == 0 {
      assert LookupParam("", key) == None;
    } else {
      var k, v := fields[0].0, fields[0].1;
      var rest := fields[1..];
      assert WellFormedFields(rest) by {
        forall i | 0 <= i < |rest| ensures '&' !in rest[i].0 && '=' !in rest[i].0 && '&' !in rest[i].1 {
          assert rest[i] == fields[i + 1];
        }
      }
      if |fields| == 1 {
        if k == key {
          LookupFirst(k, v, "");
        } else {
          var f := k + "=" + v;
          assert '&' !in f;
          if |key| + 1 <= |f| && f[..|key| + 1] == key + "=" {
            FieldNameDetermined(key, k, v);
          }
        }
      } else if k == key {
        LookupFirst(k, v, Join(rest));
      } else {
        LookupSkip(key, k, v, Join(rest));
        LookupJoin(rest, key);
      }
    }
  }

  /** The value of query parameter `key` in `url`. */
  function QueryParam(url: string, key: string): Option<string> {
    LookupParam(QueryString(url), key)
  }

  /** The query string of `base + "?" + q`, when `base` holds no `?`, is `q`. */
  lemma QueryStringAfter(base: string, q: string)
    requires '?' !in base
    ensures QueryString(base + "?" + q) == q
  {
    assert base + "?" + q == base + ['?'] + q;
    FirstIndexAfter(base, '?', q);
    assert (base + ['?'] + q)[|base| + 1..] == q;
  }

  /** A query string whose first field is `key=value`, `value` holding no `&`,
      yields `value` for `key`. */
  lemma LookupFirst(key: string, value: string, rest: string)
    requires '&' !in key && '&' !in value
    ensures LookupParam(key + "=" + value, key) == Some(value)
    ensures LookupParam(key + "=" + value + "&" + rest, key) == Some(value)
  {
    var f := key + "=" + value;
    assert '&' !in f;
    assert f[..|key| + 1] == key + "=";
    var q := f + "&" + rest;
    assert FirstIndex(q, '&') == |f| by {
      assert q[|f|] == '&';
      assert q[..|f|] == f;
    }
    assert q[..|f|] == f;
  }

  /** In a field `other=value`, only the name `other` is followed by `=`. */
  lemma FieldNameDetermined(key: string, other: string, value: string)
    requires '=' !in other && '=' !in key
    requires |key| + 1 <= |other + "=" + value|
    requires (other + "=" + value)[..|key| + 1] == key + "="
    ensures key == other
  {
    var f := other + "=" + value;
    assert forall i :: 0 <= i < |other| ==> f[i] == other[i];
    assert f[|key|] == '=';
    assert |other| <= |key|;
    assert forall i :: 0 <= i < |key| ==> f[i] == key[i];
    assert f[|other|] == '=';
    assert |key| <= |other|;
    assert f[..|key|] == other;
  }

  /** A query string whose first field is `other=value'` with `other` a key
      different from `key`, not a prefix of `key + "="`, is skipped. */
  lemma LookupSkip(key: string, other: string, value: string, rest: string)
    requires '&' !in other && '&' !in value && '=' !in other && '=' !in key && other != key
    ensures LookupParam(other + "=" + value + "&" + rest, key) == LookupParam(rest, key)
  {
    var f := other + "=" + value;
    var q := f + "&" + rest;
    assert '&' !in f;
    assert FirstIndex(q, '&') == |f| by {
      assert q[|f|] == '&';
      assert q[..|f|] == f;
    }
    assert q[..|f|] == f;
    assert q[|f| + 1..] == rest;
    if |key| + 1 <= |f| && f[..|key| + 1] == key + "=" {
      FieldNameDetermined(key, other, value);
    }
  }

  /** In a URL `base?k1=v1&…` whose base holds no `?`, parameter `key` is the
      value of the first field named `key`, here the one at position `i`. */
  lemma QueryParamOf(base: string, fields: seq<(string, string)>, key: string, i: nat)
    requires '?' !in base && WellFormedFields(fields) && '=' !in key
    requires i < |fields| && fields[i].0 == key
    requires forall j :: 0 <= j < i ==> fields[j].0 != key
    ensures QueryParam(base + "?" + Join(fields), key) == Some(fields[i].1)
  {
    QueryStringAfter(base, Join(fields));
    LookupJoin(fields, key);
    FirstValueAt(fields, key, i);
  }
}
