/** view_file's two windows: bytes that never split a UTF-8 character (section 3 of RFC 3629), and lines. */
module ViewFile {
  import opened Hop

  newtype byte = x: int | 0 <= x < 256

  const MAX_BYTES := 256 * 1024
  const MAX_LINES := 2000

  // ---------- UTF-8 ----------

  predicate Continuation(b: byte) {
    0x80 <= b < 0xC0
  }

  predicate RuneStart(b: byte) {
    !Continuation(b)
  }

  /** How many bytes the character at the head of `s` takes, if a well-formed one stands there. */
  function FirstRune(s: seq<byte>): (n: Option<nat>)
    ensures n.Some? ==> 1 <= n.value <= 4 && n.value <= |s| && RuneStart(s[0])
    ensures n.Some? ==> forall i :: 1 <= i < n.value ==> Continuation(s[i])
  {
    if s == [] then None
    else if s[0] < 0x80 then Some(1)
    else if s[0] < 0xC2 then None
    else if s[0] < 0xE0 then
      if |s| >= 2 && Continuation(s[1]) then Some(2) else None
    else if s[0] < 0xF0 then
      var lo: byte := if s[0] == 0xE0 then 0xA0 else 0x80;
      var hi: byte := if s[0] == 0xED then 0x9F else 0xBF;
      if |s| >= 3 && lo <= s[1] <= hi && Continuation(s[2]) then Some(3) else None
    else if s[0] < 0xF5 then
      var lo: byte := if s[0] == 0xF0 then 0x90 else 0x80;
      var hi: byte := if s[0] == 0xF4 then 0x8F else 0xBF;
      if |s| >= 4 && lo <= s[1] <= hi && Continuation(s[2]) && Continuation(s[3]) then Some(4) else None
    else None
  }

  /** What decoding one character consumes: an ill-formed byte counts for one. */
  function DecodedSize(s: seq<byte>): (n: nat)
    requires s != []
    ensures 1 <= n <= 4 && n <= |s|
  {
    if FirstRune(s).Some? then FirstRune(s).value else 1
  }

  predicate ValidUTF8(s: seq<byte>) {
    s == [] || (FirstRune(s).Some? && ValidUTF8(s[FirstRune(s).value..]))
  }

  lemma {:induction false} FirstRuneIsLocal(s: seq<byte>, k: nat)
    requires FirstRune(s).Some? && FirstRune(s).value <= k <= |s|
    ensures FirstRune(s[..k]) == FirstRune(s)
  {
  }

  /** A well-formed text cut in front of a character's first byte is two well-formed texts. */
  lemma {:induction false} CutAtRuneStart(s: seq<byte>, k: nat)
    requires ValidUTF8(s) && k < |s| && RuneStart(s[k])
    ensures ValidUTF8(s[..k]) && ValidUTF8(s[k..])
    decreases |s|
  {
    if k == 0 {
      assert s[0..] == s;
    } else {
      var n := FirstRune(s).value;
      assert k >= n;
      CutAtRuneStart(s[n..], k - n);
      FirstRuneIsLocal(s, k);
      assert s[..k][n..] == s[n..][..k - n];
      assert s[n..][k - n..] == s[k..];
    }
  }

  // ---------- applyByteWindow ----------

  /**
   * A window is a proper step into `remaining`, cuts no character of a well-formed text, and is no shorter than that takes:
   * where more is left, no other character starts between the cut and the limit.
   */
  ghost predicate GoodCut(remaining: seq<byte>, cut: nat) {
    && cut <= |remaining| && cut <= MAX_BYTES
    && (remaining != [] ==> cut > 0)
    && (|remaining| <= MAX_BYTES ==> cut == |remaining|)
    && (ValidUTF8(remaining) ==> ValidUTF8(remaining[..cut]) && ValidUTF8(remaining[cut..]))
    && (cut < |remaining| && !RuneStart(remaining[cut]) ==> cut <= 4)
    && (|remaining| > MAX_BYTES ==> forall i :: cut < i <= MAX_BYTES ==> !RuneStart(remaining[i]))
  }

  function Clamp(offset: int, n: nat): nat {
    if offset < 0 then 0 else if offset > n then n else offset
  }

  method ApplyByteWindow(content: seq<byte>, offset: int) returns (out: seq<byte>)
    ensures var remaining := content[Clamp(offset, |content|)..];
            out <= remaining && GoodCut(remaining, |out|)
  {
    var from := offset;
    if from < 0 {
      from := 0;
    }
    if from > |content| {
      from := |content|;
    }
    var remaining := content[from..];
    if |remaining| <= MAX_BYTES {
      assert remaining[..|remaining|] == remaining && remaining[|remaining|..] == [];
      return remaining;
    }
    var cut := MAX_BYTES;
    while cut > 0 && !RuneStart(remaining[cut])
      invariant 0 <= cut <= MAX_BYTES
      invariant forall i :: cut < i <= MAX_BYTES ==> !RuneStart(remaining[i])
    {
      cut := cut - 1;
    }
    if cut == 0 {
      cut := DecodedSize(remaining);
      if ValidUTF8(remaining) {
        FirstRuneIsLocal(remaining, cut);
        assert remaining[..cut][cut..] == [];
      }
    } else if ValidUTF8(remaining) {
      CutAtRuneStart(remaining, cut);
    }
    out := remaining[..cut];
  }

  function Concat(pages: seq<seq<byte>>): seq<byte> {
    if pages == [] then [] else Concat(pages[..|pages| - 1]) + pages[|pages| - 1]
  }

  /** Re-reading with the offset advanced by what was served ends, and serves the content exactly, page by page. */
  method ReadAllBytes(content: seq<byte>) returns (pages: seq<seq<byte>>)
    ensures Concat(pages) == content
    ensures forall i :: 0 <= i < |pages| ==> 0 < |pages[i]| <= MAX_BYTES
    ensures ValidUTF8(content) ==> forall i :: 0 <= i < |pages| ==> ValidUTF8(pages[i])
  {
    hide ValidUTF8, FirstRune, Concat;
    pages := [];
    var offset := 0;
    assert Concat(pages) == content[..offset] && content[offset..] == content by {
      NoPages(content);
    }
    while offset < |content|
      invariant 0 <= offset <= |content| && Concat(pages) == content[..offset]
      invariant forall i :: 0 <= i < |pages| ==> 0 < |pages[i]| <= MAX_BYTES
      invariant ValidUTF8(content) ==> ValidUTF8(content[offset..])
      invariant ValidUTF8(content) ==> forall i :: 0 <= i < |pages| ==> ValidUTF8(pages[i])
      decreases |content| - offset
    {
      var page := ApplyByteWindow(content, offset);
      NextPage(content, offset, pages, page);
      pages := pages + [page];
      offset := offset + |page|;
    }
    assert content[..|content|] == content;
  }

  lemma {:induction false} NoPages(content: seq<byte>)
    ensures Concat([]) == content[..0] && content[0..] == content
  {
  }

  /** One more page, served from `offset` on, moves the offset by its own length. */
  lemma {:induction false} NextPage(content: seq<byte>, offset: nat, pages: seq<seq<byte>>, page: seq<byte>)
    requires offset + |page| <= |content| && page == content[offset..][..|page|]
    ensures content[offset..][|page|..] == content[offset + |page|..]
    ensures Concat(pages) == content[..offset] ==> Concat(pages + [page]) == content[..offset + |page|]
  {
    assert (pages + [page])[..|pages|] == pages;
    assert content[..offset] + page == content[..offset + |page|];
  }

  // ---------- lines ----------

  /** Splitting at every newline: always at least one piece. */
  function Split(s: string): (pieces: seq<string>)
    ensures pieces != []
  {
    if s == [] then [[]]
    else
      var rest := Split(s[1..]);
      if s[0] == '\n' then [[]] + rest else [[s[0]] + rest[0]] + rest[1..]
  }

  /** The pieces with a newline between any two. */
  function Join(pieces: seq<string>): string {
    if pieces == [] then []
    else if |pieces| == 1 then pieces[0]
    else pieces[0] + "\n" + Join(pieces[1..])
  }

  /** A trailing newline ends the last line; it does not begin another one. */
  function Lines(content: string): seq<string> {
    var pieces := Split(content);
    if pieces[|pieces| - 1] == [] then pieces[..|pieces| - 1] else pieces
  }

  function WithoutTrailingNewline(s: string): string {
    if s != [] && s[|s| - 1] == '\n' then s[..|s| - 1] else s
  }

  lemma {:induction false} JoinSplit(s: string)
    ensures Join(Split(s)) == s
  {
    if s != [] {
      JoinSplit(s[1..]);
      var rest := Split(s[1..]);
      assert s == [s[0]] + s[1..];
      if s[0] == '\n' {
        assert Split(s)[1..] == rest;
      } else if |rest| > 1 {
        assert Split(s)[1..] == rest[1..];
      }
    }
  }

  lemma {:induction false} JoinConcat(a: seq<string>, b: seq<string>)
    requires a != [] && b != []
    ensures Join(a + b) == Join(a) + "\n" + Join(b)
  {
    if |a| == 1 {
      assert (a + b)[1..] == b;
    } else {
      JoinConcat(a[1..], b);
      assert (a + b)[1..] == a[1..] + b;
    }
  }

  lemma {:induction false} LastPiece(s: string)
    ensures var pieces := Split(s); pieces[|pieces| - 1] == [] <==> s == [] || s[|s| - 1] == '\n'
  {
    if s != [] {
      LastPiece(s[1..]);
      var rest := Split(s[1..]);
      if s[1..] != [] {
        assert s[1..][|s| - 2] == s[|s| - 1];
      }
    }
  }

  /** The lines, joined, are the content without its one trailing newline. */
  lemma {:induction false} LinesJoin(content: string)
    ensures Join(Lines(content)) == WithoutTrailingNewline(content)
  {
    hide Split, Join;
    var pieces := Split(content);
    JoinSplit(content);
    LastPiece(content);
    if pieces[|pieces| - 1] == [] {
      var init := pieces[..|pieces| - 1];
      assert pieces == init + [[]];
      JoinNothing();
      if init == [] {
        assert pieces == [[]];
      } else {
        JoinConcat(init, [[]]);
        assert content == Join(init) + "\n";
        assert content[..|Join(init)|] == Join(init);
      }
    }
  }

  lemma {:induction false} JoinNothing()
    ensures Join([]) == [] && Join([[]]) == []
  {
  }

  // ---------- resolveLineWindow ----------

  /** The slice notation: whether line `k` is asked for. */
  predicate Requested(k: int, start: Option<int>, end: Option<int>) {
    match (start, end)
    case (None, None) => k <= MAX_LINES
    case (Some(s), None) => s <= k < s + MAX_LINES
    case (None, Some(e)) => e - MAX_LINES < k <= e
    case (Some(s), Some(e)) => s <= k <= e && k < s + MAX_LINES
  }

  method ResolveLineWindow(content: string, start: Option<int>, end: Option<int>)
    returns (windowed: string, lo: int, hi: int, total: nat)
    ensures total == |Lines(content)|
    // exactly the requested lines of the file, in order
    ensures lo == 0 ==> hi == 0 && windowed == "" && forall k :: 1 <= k <= total ==> !Requested(k, start, end)
    ensures lo != 0 ==>
              && 1 <= lo <= hi <= total && hi - lo + 1 <= MAX_LINES
              && (forall k :: 1 <= k <= total ==> (Requested(k, start, end) <==> lo <= k <= hi))
              && windowed == Join(Lines(content)[lo - 1..hi])
  {
    hide Split, Join;
    var lines := Split(content);
    if lines[|lines| - 1] == [] {
      lines := lines[..|lines| - 1];
    }
    total := |lines|;
    if total == 0 {
      return "", 0, 0, 0;
    }
    match (start, end) {
      case (None, None) =>
        lo, hi := 1, MAX_LINES;
      case (Some(s), None) =>
        lo := s;
        hi := s + MAX_LINES - 1;
      case (None, Some(e)) =>
        hi := e;
        lo := e - MAX_LINES + 1;
      case (Some(s), Some(e)) =>
        lo, hi := s, e;
        if hi - lo + 1 > MAX_LINES {
          hi := lo + MAX_LINES - 1;
        }
    }
    if lo < 1 {
      lo := 1;
    }
    if hi > total {
      hi := total;
    }
    if lo > total || hi < lo {
      return "", 0, 0, total;
    }
    windowed := Join(lines[lo - 1..hi]);
  }

  /** The lines a forward window from `next` serves. */
  lemma {:induction false} ForwardWindow(next: int, lo: int, hi: int, total: nat)
    requires 1 <= next <= total
    requires lo == 0 ==> forall k :: 1 <= k <= total ==> !Requested(k, Some(next), None)
    requires lo != 0 ==> 1 <= lo <= hi <= total
                         && forall k :: 1 <= k <= total ==> (Requested(k, Some(next), None) <==> lo <= k <= hi)
    ensures lo == next && hi == if next + MAX_LINES - 1 < total then next + MAX_LINES - 1 else total
  {
    assert Requested(next, Some(next), None);
    assert Requested(lo, Some(next), None) && Requested(hi, Some(next), None);
    if hi < total {
      assert !Requested(hi + 1, Some(next), None);
    }
  }

  lemma {:induction false} OneMoreWindow(lines: seq<string>, windows: seq<string>, next: int, hi: int)
    requires 1 <= next <= hi <= |lines| && (windows == [] <==> next == 1)
    requires Join(windows) == Join(lines[..next - 1])
    ensures Join(windows + [Join(lines[next - 1..hi])]) == Join(lines[..hi])
  {
    var windowed := Join(lines[next - 1..hi]);
    assert lines[..next - 1] + lines[next - 1..hi] == lines[..hi];
    if windows != [] {
      JoinConcat(windows, [windowed]);
      JoinConcat(lines[..next - 1], lines[next - 1..hi]);
    }
  }

  /** Reading forward, each window starting behind the last one, tiles the file. */
  method ReadForward(content: string) returns (windows: seq<string>)
    ensures Join(windows) == WithoutTrailingNewline(content)
    ensures |windows| == (|Lines(content)| + MAX_LINES - 1) / MAX_LINES
  {
    hide Split, Join, Requested, WithoutTrailingNewline;
    windows := [];
    var lines := Lines(content);
    var next := 1;
    assert lines[..0] == [];
    while next <= |lines|
      invariant 1 <= next <= |lines| + 1
      invariant windows == [] <==> next == 1
      invariant Join(windows) == Join(lines[..next - 1])
      invariant next <= |lines| ==> next - 1 == MAX_LINES * |windows|
      invariant next == |lines| + 1 ==> |windows| == (|lines| + MAX_LINES - 1) / MAX_LINES
      decreases |lines| + 1 - next
    {
      var windowed, lo, hi, total := ResolveLineWindow(content, Some(next), None);
      ForwardWindow(next, lo, hi, |lines|);
      OneMoreWindow(lines, windows, next, hi);
      windows := windows + [windowed];
      next := hi + 1;
    }
    assert lines[..|lines|] == lines;
    LinesJoin(content);
  }
}
