/**
 * The keyset cursor (last_updated, id) as an opaque token: printed as "%d_%s", then encoded as base64url with padding
 * (section 5 of RFC 4648). Texts are ASCII, one character a byte.
 */
module PageToken {
  import opened Hop

  predicate IsAscii(s: string) {
    forall i :: 0 <= i < |s| ==> s[i] as int < 128
  }

  // ---------- decimal numbers ----------

  function Digit(d: nat): char
    requires d < 10
  {
    '0' + d as char
  }

  predicate IsDigit(c: char) {
    '0' <= c <= '9'
  }

  function Value(c: char): nat
    requires IsDigit(c)
  {
    c as int - '0' as int
  }

  function Digits(n: nat): (s: string)
    ensures s != [] && IsAscii(s) && forall i :: 0 <= i < |s| ==> IsDigit(s[i])
  {
    if n < 10 then [Digit(n)] else Digits(n / 10) + [Digit(n % 10)]
  }

  function FromDigits(s: string): nat
    requires forall i :: 0 <= i < |s| ==> IsDigit(s[i])
  {
    if s == [] then 0 else FromDigits(s[..|s| - 1]) * 10 + Value(s[|s| - 1])
  }

  lemma {:induction false} DigitsRoundTrip(n: nat)
    ensures FromDigits(Digits(n)) == n
  {
    var s := Digits(n);
    if n < 10 {
      assert s[..0] == [];
    } else {
      DigitsRoundTrip(n / 10);
      assert s[..|s| - 1] == Digits(n / 10);
    }
  }

  function Decimal(n: int): (s: string)
    ensures s != [] && IsAscii(s)
  {
    if n < 0 then "-" + Digits(-n) else Digits(n)
  }

  // ---------- scanning back ----------

  predicate IsSpace(c: char) {
    c == ' ' || 9 as char <= c <= 13 as char
  }

  /** What is left after leading white space; a newline is not skipped but refused. */
  function SkipSpace(s: string): Option<string> {
    if s == [] then Some([])
    else if s[0] == '\r' && |s| > 1 && s[1] == '\n' then SkipSpace(s[1..])
    else if s[0] == '\n' then None
    else if IsSpace(s[0]) then SkipSpace(s[1..])
    else Some(s)
  }

  /** How many leading digits `s` has. */
  function DigitRun(s: string): (n: nat)
    ensures n <= |s| && forall i :: 0 <= i < n ==> IsDigit(s[i])
  {
    if s == [] || !IsDigit(s[0]) then 0 else 1 + DigitRun(s[1..])
  }

  const MIN_INT64: int := -0x8000_0000_0000_0000
  const MAX_INT64: int := 0x7fff_ffff_ffff_ffff

  predicate IsInt64(n: int) {
    MIN_INT64 <= n <= MAX_INT64
  }

  /** %d: white space, a sign, digits; the number and what follows it. */
  function ScanNumber(s: string): Option<(int, string)> {
    match SkipSpace(s)
    case None => None
    case Some(t) =>
      var signed := t != [] && (t[0] == '-' || t[0] == '+');
      var u := if signed then t[1..] else t;
      var n := DigitRun(u);
      if n == 0 then None
      else
        var value: int := if signed && t[0] == '-' then 0 - FromDigits(u[..n]) else FromDigits(u[..n]);
        if IsInt64(value) then Some((value, u[n..])) else None
  }

  /** The leading characters of `s` that are no white space. */
  function Word(s: string): string {
    if s == [] || IsSpace(s[0]) then [] else [s[0]] + Word(s[1..])
  }

  /** %s: white space, then a non-empty word; whatever follows is ignored. */
  function ScanWord(s: string): Option<string> {
    match SkipSpace(s)
    case None => None
    case Some(t) => if t == [] then None else Some(Word(t))
  }

  function ScanCursor(s: string): Option<(int, string)> {
    match ScanNumber(s)
    case None => None
    case Some((n, rest)) =>
      if rest == [] || rest[0] != '_' then None
      else
        match ScanWord(rest[1..])
        case None => None
        case Some(id) => Some((n, id))
  }

  lemma {:induction false} WordIsAll(s: string)
    ensures Word(s) == s <==> forall i :: 0 <= i < |s| ==> !IsSpace(s[i])
    ensures |Word(s)| <= |s|
  {
    if s != [] {
      WordIsAll(s[1..]);
      if !IsSpace(s[0]) {
        assert Word(s)[1..] == Word(s[1..]);
        assert s == [s[0]] + s[1..];
        if forall i :: 0 <= i < |s| ==> !IsSpace(s[i]) {
          forall i | 0 <= i < |s[1..]| ensures !IsSpace(s[1..][i]) {
            assert s[1..][i] == s[i + 1];
          }
        } else {
          var i :| 0 <= i < |s| && IsSpace(s[i]);
          assert IsSpace(s[1..][i - 1]);
        }
      }
    }
  }

  lemma {:induction false} SkipSpaceShortens(s: string)
    ensures SkipSpace(s).Some? ==> |SkipSpace(s).value| <= |s|
    ensures SkipSpace(s) == Some(s) || (SkipSpace(s).Some? ==> |SkipSpace(s).value| < |s|)
  {
    if s != [] {
      SkipSpaceShortens(s[1..]);
    }
  }

  lemma {:induction false} DigitRunOf(s: string, rest: string)
    requires forall i :: 0 <= i < |s| ==> IsDigit(s[i])
    requires rest != [] && !IsDigit(rest[0])
    ensures DigitRun(s + rest) == |s|
  {
    if s == [] {
      assert s + rest == rest;
    } else {
      DigitRunOf(s[1..], rest);
      assert (s + rest)[1..] == s[1..] + rest;
    }
  }

  lemma {:induction false} DigitsScanBack(n: nat, rest: string)
    requires rest != [] && !IsDigit(rest[0])
    ensures DigitRun(Digits(n) + rest) == |Digits(n)|
    ensures FromDigits((Digits(n) + rest)[..|Digits(n)|]) == n && (Digits(n) + rest)[|Digits(n)|..] == rest
  {
    hide Digits, FromDigits, DigitRun;
    DigitsRoundTrip(n);
    DigitRunOf(Digits(n), rest);
    assert (Digits(n) + rest)[..|Digits(n)|] == Digits(n);
  }

  lemma {:induction false} NumberScansBack(n: int, rest: string)
    requires IsInt64(n) && rest != [] && !IsDigit(rest[0])
    ensures ScanNumber(Decimal(n) + rest) == Some((n, rest))
  {
    hide Digits, FromDigits, DigitRun, SkipSpace, Decimal;
    var digits := Digits(if n < 0 then -n else n);
    DigitsScanBack(if n < 0 then -n else n, rest);
    DecimalStarts(n, rest);
  }

  lemma {:induction false} DecimalStarts(n: int, rest: string)
    ensures var s := Decimal(n) + rest;
            && SkipSpace(s) == Some(s)
            && if n < 0 then s[0] == '-' && s[1..] == Digits(-n) + rest else s == Digits(n) + rest && IsDigit(s[0])
  {
    hide Digits;
    var s := Decimal(n) + rest;
    if n < 0 {
      assert s[1..] == Digits(-n) + rest;
    } else {
      assert s[0] == Digits(n)[0];
    }
  }

  lemma {:induction false} WordScansBack(id: string)
    ensures ScanWord(id) == Some(id) <==> id != "" && forall i :: 0 <= i < |id| ==> !IsSpace(id[i])
  {
    hide Word;
    SkipSpaceShortens(id);
    WordIsAll(id);
    if SkipSpace(id).Some? {
      WordIsAll(SkipSpace(id).value);
    }
  }

  /** The printed cursor scans back to itself exactly for a non-empty id without white space. */
  lemma {:induction false} CursorScansBack(n: int, id: string)
    requires IsInt64(n)
    ensures ScanCursor(Decimal(n) + "_" + id) == Some((n, id)) <==> id != "" && forall i :: 0 <= i < |id| ==>
        !IsSpace(id[i])
  {
    hide ScanNumber, ScanWord, Decimal;
    assert Decimal(n) + "_" + id == Decimal(n) + ("_" + id);
    NumberScansBack(n, "_" + id);
    assert ("_" + id)[1..] == id;
    WordScansBack(id);
  }

  // ---------- base64url ----------

  function Symbol(v: nat): char
    requires v < 64
  {
    if v < 26 then 'A' + v as char
    else if v < 52 then 'a' + (v - 26) as char
    else if v < 62 then '0' + (v - 52) as char
    else if v == 62 then '-' else '_'
  }

  function Sextet(c: char): Option<nat> {
    if 'A' <= c <= 'Z' then Some(c as int - 'A' as int)
    else if 'a' <= c <= 'z' then Some(c as int - 'a' as int + 26)
    else if '0' <= c <= '9' then Some(c as int - '0' as int + 52)
    else if c == '-' then Some(62) else if c == '_' then Some(63) else None
  }

  lemma {:induction false} SymbolRoundTrip(v: nat)
    requires v < 64
    ensures Sextet(Symbol(v)) == Some(v) && Symbol(v) != '=' && Symbol(v) != '\n' && Symbol(v) != '\r'
  {
  }

  /** Three bytes as four symbols; one or two left over are padded. */
  function Encode(s: string): (t: string)
    requires forall i :: 0 <= i < |s| ==> s[i] as int < 256
    ensures |t| % 4 == 0
  {
    if s == [] then []
    else if |s| == 1 then
      [Symbol(s[0] as int / 4), Symbol(s[0] as int % 4 * 16), '=', '=']
    else if |s| == 2 then
      [Symbol(s[0] as int / 4), Symbol(s[0] as int % 4 * 16 + s[1] as int / 16), Symbol(s[1] as int % 16 * 4), '=']
    else
      [Symbol(s[0] as int / 4), Symbol(s[0] as int % 4 * 16 + s[1] as int / 16),
       Symbol(s[1] as int % 16 * 4 + s[2] as int / 64), Symbol(s[2] as int % 64)] + Encode(s[3..])
  }

  /** Line breaks are no part of the encoded text. */
  function WithoutBreaks(t: string): string {
    if t == [] then []
    else if t[0] == '\n' || t[0] == '\r' then WithoutBreaks(t[1..])
    else [t[0]] + WithoutBreaks(t[1..])
  }

  function Byte(b: nat): char
    requires b < 256
  {
    b as char
  }

  /** Groups of four symbols, padding only at the very end; anything else is corrupt. */
  function DecodeGroups(t: string): Option<string> {
    if t == [] then Some([])
    else if |t| < 4 then None
    else
      var a, b, c, d := Sextet(t[0]), Sextet(t[1]), Sextet(t[2]), Sextet(t[3]);
      if a.None? || b.None? then None
      else if c.None? then
        if t[2] == '=' && t[3] == '=' && |t| == 4 then Some([Byte(a.value * 4 + b.value / 16)]) else None
      else if d.None? then
        if t[3] == '=' && |t| == 4 then
          Some([Byte(a.value * 4 + b.value / 16), Byte(b.value % 16 * 16 + c.value / 4)])
        else None
      else
        match DecodeGroups(t[4..])
        case None => None
        case Some(rest) =>
          Some([Byte(a.value * 4 + b.value / 16), Byte(b.value % 16 * 16 + c.value / 4),
                Byte(c.value % 4 * 64 + d.value)] + rest)
  }

  function Decode(t: string): Option<string> {
    DecodeGroups(WithoutBreaks(t))
  }

  lemma {:induction false} SplitAndJoin(a: nat, b: nat, c: nat)
    requires a < 256 && b < 256 && c < 256
    ensures var x, y, z, w := a / 4, a % 4 * 16 + b / 16, b % 16 * 4 + c / 64, c % 64;
            && x < 64 && y < 64 && z < 64
            && x * 4 + y / 16 == a && y % 16 * 16 + z / 4 == b && z % 4 * 64 + w == c
  {
  }

  lemma {:induction false} LastByte(a: nat)
    requires a < 256
    ensures DecodeGroups([Symbol(a / 4), Symbol(a % 4 * 16), '=', '=']) == Some([Byte(a)])
  {
    SymbolRoundTrip(a / 4);
    SymbolRoundTrip(a % 4 * 16);
  }

  lemma {:induction false} LastBytes(a: nat, b: nat)
    requires a < 256 && b < 256
    ensures DecodeGroups([Symbol(a / 4), Symbol(a % 4 * 16 + b / 16), Symbol(b % 16 * 4), '=']) ==
        Some([Byte(a), Byte(b)])
  {
    hide Symbol, Sextet;
    SplitAndJoin(a, b, 0);
    SymbolRoundTrip(a / 4);
    SymbolRoundTrip(a % 4 * 16 + b / 16);
    SymbolRoundTrip(b % 16 * 4);
    NoSymbol();
  }

  lemma {:induction false} NoSymbol()
    ensures Sextet('=') == None
  {
  }

  lemma {:induction false} ThreeBytes(a: nat, b: nat, c: nat, rest: string)
    requires a < 256 && b < 256 && c < 256
    requires DecodeGroups(rest).Some?
    ensures DecodeGroups([Symbol(a / 4), Symbol(a % 4 * 16 + b / 16), Symbol(b % 16 * 4 + c / 64),
                          Symbol(c % 64)] + rest) ==
            Some([Byte(a), Byte(b), Byte(c)] + DecodeGroups(rest).value)
  {
    hide Symbol, Sextet;
    var x, y, z, w := a / 4, a % 4 * 16 + b / 16, b % 16 * 4 + c / 64, c % 64;
    SplitAndJoin(a, b, c);
    SymbolRoundTrip(x);
    SymbolRoundTrip(y);
    SymbolRoundTrip(z);
    SymbolRoundTrip(w);
    assert ([Symbol(x), Symbol(y), Symbol(z), Symbol(w)] + rest)[4..] == rest;
  }

  lemma {:induction false} GroupsRoundTrip(s: string)
    requires forall i :: 0 <= i < |s| ==> s[i] as int < 256
    ensures DecodeGroups(Encode(s)) == Some(s)
  {
    hide DecodeGroups, Symbol;
    if s == [] {
      EmptyGroups();
    } else if |s| == 1 {
      LastByte(s[0] as int);
      assert s == [s[0]];
    } else if |s| == 2 {
      LastBytes(s[0] as int, s[1] as int);
      assert s == [s[0], s[1]];
    } else {
      GroupsRoundTrip(s[3..]);
      ThreeBytes(s[0] as int, s[1] as int, s[2] as int, Encode(s[3..]));
      assert s == [s[0], s[1], s[2]] + s[3..];
    }
  }

  lemma {:induction false} EmptyGroups()
    ensures DecodeGroups([]) == Some([])
  {
  }

  lemma {:induction false} NoBreaks(t: string)
    requires forall i :: 0 <= i < |t| ==> t[i] != '\n' && t[i] != '\r'
    ensures WithoutBreaks(t) == t
  {
    if t != [] {
      NoBreaks(t[1..]);
      assert t == [t[0]] + t[1..];
    }
  }

  lemma {:induction false} EncodeHasNoBreaks(s: string)
    requires forall i :: 0 <= i < |s| ==> s[i] as int < 256
    ensures forall i :: 0 <= i < |Encode(s)| ==> Encode(s)[i] != '\n' && Encode(s)[i] != '\r'
  {
    if |s| > 2 {
      EncodeHasNoBreaks(s[3..]);
    }
  }

  // ---------- the token ----------

  function EncodeToken(lastUpdated: int, id: string): string
    requires IsAscii(id)
  {
    Encode(Decimal(lastUpdated) + "_" + id)
  }

  function DecodeToken(token: string): Option<(int, string)> {
    match Decode(token)
    case None => None
    case Some(text) => ScanCursor(text)
  }

  /** A page token gives its cursor back exactly when the id is non-empty and has no white space. */
  lemma {:induction false} TokenRoundTrip(lastUpdated: int, id: string)
    requires IsInt64(lastUpdated) && IsAscii(id)
    ensures DecodeToken(EncodeToken(lastUpdated, id)) == Some((lastUpdated, id)) <==>
            id != "" && forall i :: 0 <= i < |id| ==> !IsSpace(id[i])
    ensures EncodeToken(lastUpdated, id) != ""
  {
    var text := Decimal(lastUpdated) + "_" + id;
    GroupsRoundTrip(text);
    EncodeHasNoBreaks(text);
    NoBreaks(Encode(text));
    CursorScansBack(lastUpdated, id);
  }
}
