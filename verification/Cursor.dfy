/**
Page cursors: a timestamp and an id, joined by a bar and written in base64
(sections 4 and 5 of RFC 4648).  Strings are sequences of bytes, held as
characters below 256.
*/
module Cursor {
  import opened Common

  predicate IsBytes(s: string) {
    forall i :: 0 <= i < |s| ==> s[i] as int < 256
  }

  /** The alphabet of section 4 (with padding) or that of section 5 (here used without). */
  datatype Encoding = Std | RawUrl

  function Symbol(e: Encoding, v: int): char
    requires 0 <= v < 64
  {
    if v < 26 then ('A' as int + v) as char
    else if v < 52 then ('a' as int + v - 26) as char
    else if v < 62 then ('0' as int + v - 52) as char
    else if v == 62 then (if e.Std? then '+' else '-')
    else (if e.Std? then '/' else '_')
  }

  function SymbolValue(e: Encoding, c: char): Option<int> {
    if 'A' <= c <= 'Z' then Some(c as int - 'A' as int)
    else if 'a' <= c <= 'z' then Some(c as int - 'a' as int + 26)
    else if '0' <= c <= '9' then Some(c as int - '0' as int + 52)
    else if c == (if e.Std? then '+' else '-') then Some(62)
    else if c == (if e.Std? then '/' else '_') then Some(63)
    else None
  }

  lemma SymbolRoundTrip(e: Encoding, v: int)
    requires 0 <= v < 64
    ensures SymbolValue(e, Symbol(e, v)) == Some(v)
    ensures Symbol(e, v) != '=' && Symbol(e, v) != '\n' && Symbol(e, v) != '\r'
  {
  }

  /** The four symbols of a 24-bit group. */
  function Quantum(e: Encoding, v: int): (q: string)
    requires 0 <= v < 0x100_0000
    ensures |q| == 4
  {
    [Symbol(e, v / 0x4_0000), Symbol(e, v / 0x1000 % 64), Symbol(e, v / 64 % 64), Symbol(e, v % 64)]
  }

  function Pad(e: Encoding, n: nat): string {
    if e.Std? && n > 0 then ['='] + Pad(e, n - 1) else ""
  }

  function Encode(e: Encoding, s: string): string
    requires IsBytes(s)
    decreases |s|
  {
    if s == "" then ""
    else if |s| == 1 then Quantum(e, s[0] as int * 0x1_0000)[..2] + Pad(e, 2)
    else if |s| == 2 then Quantum(e, s[0] as int * 0x1_0000 + s[1] as int * 0x100)[..3] + Pad(e, 1)
    else Quantum(e, s[0] as int * 0x1_0000 + s[1] as int * 0x100 + s[2] as int) + Encode(e, s[3..])
  }

  predicate InAlphabet(e: Encoding, q: string) {
    forall i :: 0 <= i < |q| ==> SymbolValue(e, q[i]).Some?
  }

  /** The value of the symbol at `i`; the symbols a short group lacks count as zero. */
  function Sextet(e: Encoding, q: string, i: nat): (d: int)
    requires InAlphabet(e, q)
    ensures 0 <= d < 64
  {
    if i < |q| then SymbolValue(e, q[i]).value else 0
  }

  function Join(a: int, b: int, c: int, d: int): int {
    a * 0x4_0000 + b * 0x1000 + c * 64 + d
  }

  /** The 24-bit group of up to four symbols, if all are in the alphabet. */
  function Group(e: Encoding, q: string): (g: Option<int>)
    requires |q| <= 4
    ensures g.Some? ==> 0 <= g.value < 0x100_0000
  {
    if InAlphabet(e, q) then Some(Join(Sextet(e, q, 0), Sextet(e, q, 1), Sextet(e, q, 2), Sextet(e, q, 3)))
    else None
  }

  function GroupBytes(v: int): (s: string)
    requires 0 <= v < 0x100_0000
    ensures |s| == 3
  {
    [(v / 0x1_0000) as char, (v / 0x100 % 0x100) as char, (v % 0x100) as char]
  }

  /** The first `n` bytes of the group of `q`. */
  function Bytes(e: Encoding, q: string, n: nat): Option<string>
    requires |q| <= 4 && n <= 3
  {
    match Group(e, q)
    case None => None
    case Some(v) => Some(GroupBytes(v)[..n])
  }

  /** Decoding once line breaks are gone; unused bits of the last symbol are not looked at. */
  function DecodeSymbols(e: Encoding, t: string): Option<string>
    decreases |t|
  {
    if t == "" then Some("")
    else if |t| < 4 then
      if e.Std? || |t| == 1 then None else Bytes(e, t, |t| - 1)
    else if e.Std? && |t| == 4 && t[3] == '=' then
      if t[2] == '=' then Bytes(e, t[..2], 1) else Bytes(e, t[..3], 2)
    else
      match (Bytes(e, t[..4], 3), DecodeSymbols(e, t[4..]))
      case (Some(a), Some(b)) => Some(a + b)
      case _ => None
  }

  function DropLineBreaks(t: string): string {
    if t == "" then ""
    else if t[0] == '\n' || t[0] == '\r' then DropLineBreaks(t[1..])
    else [t[0]] + DropLineBreaks(t[1..])
  }

  function Decode(e: Encoding, t: string): Option<string> {
    DecodeSymbols(e, DropLineBreaks(t))
  }

  // ---------------------------------------------------------------- round trip of base64

  predicate NoBreaks(t: string) {
    forall i :: 0 <= i < |t| ==> t[i] != '\n' && t[i] != '\r'
  }

  lemma {:induction false} NothingToDrop(t: string)
    requires NoBreaks(t)
    ensures DropLineBreaks(t) == t
  {
    if t != "" {
      NothingToDrop(t[1..]);
      assert t == [t[0]] + t[1..];
    }
  }

  lemma SplitOnce(v: int)
    requires v >= 0
    ensures v == v / 64 * 64 + v % 64 && v / 64 >= 0
    ensures v / 64 / 64 == v / 0x1000
    ensures v / 0x1000 / 64 == v / 0x4_0000
  {
  }

  lemma Shifted(k: int)
    ensures k * 0x1_0000 / 64 == k * 0x400 && k * 0x1_0000 % 64 == 0
    ensures k * 0x400 % 64 == 0 && k * 0x100 % 64 == 0
  {
  }

  lemma LowSextetsZero(v: int)
    ensures v % 0x1_0000 == 0 ==> v / 64 % 64 == 0 && v % 64 == 0
    ensures v % 0x100 == 0 ==> v % 64 == 0
  {
    Shifted(v / 0x1_0000);
    Shifted(v / 0x100);
  }

  lemma JoinSplit(v: int)
    requires 0 <= v < 0x100_0000
    ensures Join(v / 0x4_0000, v / 0x1000 % 64, v / 64 % 64, v % 64) == v
  {
    SplitOnce(v);
    SplitOnce(v / 64);
    SplitOnce(v / 0x1000);
  }

  /** The symbols of a group give its leading bytes back, as far as the symbols reach. */
  lemma {:induction false} QuantumRoundTrip(e: Encoding, v: int, n: nat)
    requires 0 <= v < 0x100_0000 && 1 <= n <= 3
    requires n == 1 ==> v % 0x1_0000 == 0
    requires n == 2 ==> v % 0x100 == 0
    ensures Bytes(e, Quantum(e, v)[..n + 1], n) == Some(GroupBytes(v)[..n])
  {
    var q := Quantum(e, v);
    SymbolRoundTrip(e, v / 0x4_0000);
    SymbolRoundTrip(e, v / 0x1000 % 64);
    SymbolRoundTrip(e, v / 64 % 64);
    SymbolRoundTrip(e, v % 64);
    JoinSplit(v);
    LowSextetsZero(v);
    assert Group(e, q[..n + 1]) == Some(v);
  }

  lemma QuantumIsText(e: Encoding, v: int)
    requires 0 <= v < 0x100_0000
    ensures NoBreaks(Quantum(e, v)) && Quantum(e, v)[2] != '=' && Quantum(e, v)[3] != '='
  {
    SymbolRoundTrip(e, v / 0x4_0000);
    SymbolRoundTrip(e, v / 0x1000 % 64);
    SymbolRoundTrip(e, v / 64 % 64);
    SymbolRoundTrip(e, v % 64);
  }

  lemma ByteGroup(a: int, b: int, c: int)
    requires 0 <= a < 256 && 0 <= b < 256 && 0 <= c < 256
    ensures GroupBytes(a * 0x1_0000 + b * 0x100 + c) == [a as char, b as char, c as char]
  {
    var v := a * 0x1_0000 + b * 0x100 + c;
    assert v / 0x1_0000 == a;
    assert v / 0x100 == a * 0x100 + b;
    assert v % 0x100 == c;
  }

  predicate ReadsBack(e: Encoding, s: string)
    requires IsBytes(s)
  {
    var t := Encode(e, s);
    NoBreaks(t) && DecodeSymbols(e, t) == Some(s) && (s != "" ==> t != "")
  }

  /** A short last group, with its padding, is read back as the bytes it holds. */
  lemma LastGroup(e: Encoding, q: string, n: nat)
    requires |q| == 4 && 1 <= n <= 2 && NoBreaks(q) && q[2] != '='
    ensures var t := q[..n + 1] + Pad(e, 3 - n);
            NoBreaks(t) && t != "" && DecodeSymbols(e, t) == Bytes(e, q[..n + 1], n)
  {
    var t := q[..n + 1] + Pad(e, 3 - n);
    assert Pad(Std, 1) == ['='];
    assert Pad(Std, 2) == ['=', '='];
    if e.Std? {
      assert t[3] == '=';
      assert n == 1 ==> t[2] == '=' && t[..2] == q[..2];
      assert n == 2 ==> t[2] == q[2] && t[..3] == q[..3];
    } else {
      assert t == q[..n + 1];
    }
  }

  /** A last group of one or two bytes. */
  lemma ShortGroup(e: Encoding, v: int, n: nat)
    requires 0 <= v < 0x100_0000 && 1 <= n <= 2
    requires n == 1 ==> v % 0x1_0000 == 0
    requires n == 2 ==> v % 0x100 == 0
    ensures var t := Quantum(e, v)[..n + 1] + Pad(e, 3 - n);
            NoBreaks(t) && t != "" && DecodeSymbols(e, t) == Some(GroupBytes(v)[..n])
  {
    QuantumRoundTrip(e, v, n);
    QuantumIsText(e, v);
    LastGroup(e, Quantum(e, v), n);
  }

  lemma LowByteZero(a: int, b: int)
    ensures (a * 0x1_0000 + b * 0x100) % 0x100 == 0
  {
    ByteMultiple(a * 0x100 + b);
    assert a * 0x1_0000 + b * 0x100 == (a * 0x100 + b) * 0x100;
  }

  lemma ByteMultiple(k: int)
    ensures k * 0x100 % 0x100 == 0
  {
  }

  lemma OneByte(e: Encoding, s: string)
    requires IsBytes(s) && |s| == 1
    ensures ReadsBack(e, s)
  {
    var v := s[0] as int * 0x1_0000;
    ByteGroup(s[0] as int, 0, 0);
    ShortGroup(e, v, 1);
    assert s == GroupBytes(v)[..1];
    assert Encode(e, s) == Quantum(e, v)[..2] + Pad(e, 2);
  }

  lemma TwoBytes(e: Encoding, s: string)
    requires IsBytes(s) && |s| == 2
    ensures ReadsBack(e, s)
  {
    var v := s[0] as int * 0x1_0000 + s[1] as int * 0x100;
    assert s == GroupBytes(v)[..2] by {
      ByteGroup(s[0] as int, s[1] as int, 0);
    }
    LowByteZero(s[0] as int, s[1] as int);
    ShortGroup(e, v, 2);
    assert Encode(e, s) == Quantum(e, v)[..3] + Pad(e, 1);
  }

  lemma FullGroup(e: Encoding, v: int, rest: string)
    requires 0 <= v < 0x100_0000 && NoBreaks(rest)
    ensures var t := Quantum(e, v) + rest;
            NoBreaks(t) &&
            (DecodeSymbols(e, rest).Some? ==> DecodeSymbols(e, t) == Some(GroupBytes(v) + DecodeSymbols(e, rest).value))
  {
    var q := Quantum(e, v);
    QuantumRoundTrip(e, v, 3);
    QuantumIsText(e, v);
    assert (q + rest)[..4] == q[..4] && (q + rest)[4..] == rest;
    assert GroupBytes(v)[..3] == GroupBytes(v);
  }

  lemma MoreBytes(e: Encoding, s: string)
    requires IsBytes(s) && |s| > 2 && ReadsBack(e, s[3..])
    ensures ReadsBack(e, s)
  {
    var v := s[0] as int * 0x1_0000 + s[1] as int * 0x100 + s[2] as int;
    FullGroup(e, v, Encode(e, s[3..]));
    assert Encode(e, s) == Quantum(e, v) + Encode(e, s[3..]);
    ThreeBytes(s, v);
  }

  lemma ThreeBytes(s: string, v: int)
    requires IsBytes(s) && |s| > 2 && v == s[0] as int * 0x1_0000 + s[1] as int * 0x100 + s[2] as int
    ensures 0 <= v < 0x100_0000 && GroupBytes(v) + s[3..] == s
  {
    ByteGroup(s[0] as int, s[1] as int, s[2] as int);
    assert s == s[..3] + s[3..] && s[..3] == [s[0], s[1], s[2]];
  }

  /** Base64 text, of either alphabet, is read back as the bytes it was made from. */
  lemma {:induction false} Base64RoundTrip(e: Encoding, s: string)
    requires IsBytes(s)
    ensures ReadsBack(e, s)
    decreases |s|
  {
    if s == "" {
    } else if |s| == 1 {
      OneByte(e, s);
    } else if |s| == 2 {
      TwoBytes(e, s);
    } else {
      Base64RoundTrip(e, s[3..]);
      MoreBytes(e, s);
    }
  }

  /** The last two symbols are all that sets the two alphabets apart. */
  lemma LastSymbols()
    ensures Symbol(Std, 62) == '+' && Symbol(Std, 63) == '/' && Symbol(RawUrl, 62) == '-' && Symbol(RawUrl, 63) == '_'
    ensures forall v :: 0 <= v < 62 ==> Symbol(Std, v) == Symbol(RawUrl, v)
  {
  }

  /** Test vectors of section 10 of RFC 4648. */
  lemma {:induction false} TestVectors(e: Encoding)
    ensures Encode(e, "f") == "Zg" + if e == Std then "==" else ""
    ensures Encode(e, "fo") == "Zm8" + if e == Std then "=" else ""
  {
  }

  lemma {:induction false} FullTestVector(e: Encoding)
    ensures Encode(e, "foo") == "Zm9v"
  {
    assert "foo"[3..] == "";
  }

  /** Line breaks in the text are skipped. */
  lemma {:induction false} BreaksAreSkipped(e: Encoding, a: string, c: char, b: string)
    requires c == '\n' || c == '\r'
    ensures Decode(e, a + [c] + b) == Decode(e, a + b)
  {
    BreakDropped(a, c, b);
  }

  lemma {:induction false} BreakDropped(a: string, c: char, b: string)
    requires c == '\n' || c == '\r'
    ensures DropLineBreaks(a + [c] + b) == DropLineBreaks(a + b)
  {
    if a == "" {
      assert a + b == b && (a + [c] + b)[1..] == b;
    } else {
      BreakDropped(a[1..], c, b);
      assert (a + [c] + b)[1..] == a[1..] + [c] + b && (a + b)[1..] == a[1..] + b;
    }
  }

  // ---------------------------------------------------------------- cursors

  /** How instants are written and read; the calendar text itself is a parameter. */
  datatype TimeCodec = TimeCodec(format: int -> string, parse: string -> Option<int>)

  ghost predicate GoodCodec(c: TimeCodec) {
    forall t: int :: IsBytes(c.format(t)) && '|' !in c.format(t) && c.parse(c.format(t)) == Some(t)
  }

  datatype CursorError = BadBase64 | Malformed | BadTime

  function EncodeCursor(e: Encoding, c: TimeCodec, t: int, id: string): string
    requires IsBytes(c.format(t)) && IsBytes(id)
  {
    Encode(e, c.format(t) + "|" + id)
  }

  /** Where the first bar of `s` is; its length when there is none. */
  function FirstBar(s: string): (k: nat)
    ensures k <= |s|
    ensures k < |s| ==> s[k] == '|'
    ensures '|' !in s[..k]
  {
    if s == "" || s[0] == '|' then 0
    else
      var k := FirstBar(s[1..]);
      assert s[..1 + k] == [s[0]] + s[1..][..k];
      1 + k
  }

  function DecodeCursor(e: Encoding, c: TimeCodec, cursor: string): Result<(int, string), CursorError> {
    match Decode(e, cursor)
    case None => Err(BadBase64)
    case Some(raw) =>
      var k := FirstBar(raw);
      if k == |raw| then Err(Malformed)
      else
        match c.parse(raw[..k])
        case None => Err(BadTime)
        case Some(t) => Ok((t, raw[k + 1..]))
  }

  lemma {:induction false} FrontEndsAtBar(text: string, rest: string)
    requires '|' !in text
    ensures FirstBar(text + "|" + rest) == |text|
  {
    var raw := text + "|" + rest;
    if text == "" {
    } else {
      assert raw[0] == text[0] && text[0] in text;
      FrontEndsAtBar(text[1..], rest);
      assert raw[1..] == text[1..] + "|" + rest;
    }
  }

  /** A cursor read back gives the instant and the id it was made from, also for ids with bars in them. */
  lemma {:induction false} CursorRoundTrip(e: Encoding, c: TimeCodec, t: int, id: string)
    requires GoodCodec(c) && IsBytes(id)
    ensures DecodeCursor(e, c, EncodeCursor(e, c, t, id)) == Ok((t, id))
    ensures EncodeCursor(e, c, t, id) != ""
  {
    var text := c.format(t);
    var raw := text + "|" + id;
    Base64RoundTrip(e, raw);
    NothingToDrop(Encode(e, raw));
    FrontEndsAtBar(text, id);
    assert raw[..|text|] == text && raw[|text| + 1..] == id;
  }

  /** A cursor can be read exactly when it decodes to an instant, a bar and an id; the first bar counts. */
  lemma {:induction false} ReadableIff(e: Encoding, c: TimeCodec, cursor: string, t: int, id: string)
    ensures DecodeCursor(e, c, cursor) == Ok((t, id)) <==>
            exists text :: '|' !in text && c.parse(text) == Some(t) && Decode(e, cursor) == Some(text + "|" + id)
  {
    if DecodeCursor(e, c, cursor) == Ok((t, id)) {
      var raw := Decode(e, cursor).value;
      var k := FirstBar(raw);
      assert raw == raw[..k] + "|" + raw[k + 1..];
    }
    if text :| '|' !in text && c.parse(text) == Some(t) && Decode(e, cursor) == Some(text + "|" + id) {
      var raw := text + "|" + id;
      FrontEndsAtBar(text, id);
      assert raw[..|text|] == text && raw[|text| + 1..] == id;
    }
  }
}
