/** The telnet side of a Soul connection, shared by MudObjects.py and mud.py:
    splitting the raw bytes read from the socket into command lines while
    answering IAC DO TIMING-MARK, and framing an outgoing message with the
    echo negotiation codes. Bytes are characters 0..255, as in the Python 2
    strings the source works on. */
module Telnet {

  /** IAC DO TIMING-MARK, the sequence the line splitter watches for. */
  const DoTimingMark: string := "\U{FF}\U{FD}\U{06}"
  /** IAC WILL TIMING-MARK, written back each time the sequence completes. */
  const WillTimingMark: string := "\U{FF}\U{FB}\U{06}"
  /** IAC WILL ECHO and IAC WONT ECHO, around every sent message. */
  const WillEcho: string := "\U{FF}\U{FB}\U{01}"
  const WontEcho: string := "\U{FF}\U{FC}\U{01}"

  /** validChar: kept in the current line. */
  predicate Printable(c: char) { 32 <= c as int <= 126 }
  /** ctrlChar: fed to the IAC matcher. */
  predicate Control(c: char) { c as int >= 240 || c as int < 32 }
  /** CMD_TERM: ends the current line. */
  predicate Terminator(c: char) { c == '\r' || c == '\n' }

  /** The splitter's variables: completed lines, the current line, how much
      of IAC DO TIMING-MARK has been matched, and how many replies were
      written. */
  datatype ScanState = ScanState(lines: seq<string>, line: string, matched: nat, replies: nat)

  const Start := ScanState([], "", 0, 0)

  /** One iteration of the splitter's loop. A control byte that is not the
      next byte of the sequence restarts the match from zero (it is not
      re-tried as a first byte); other bytes leave the match alone. */
  function Feed(s: ScanState, c: char): (r: ScanState)
    requires s.matched < 3
    ensures r.matched < 3
  {
    var line := if Printable(c) then s.line + [c] else s.line;
    var m := if Control(c) then (if DoTimingMark[s.matched] == c then s.matched + 1 else 0) else s.matched;
    var m', n := if m == 3 then 0 else m, if m == 3 then s.replies + 1 else s.replies;
    if Terminator(c) && line != [] then ScanState(s.lines + [line], [], m', n)
    else ScanState(s.lines, line, m', n)
  }

  /** The splitter run over `raw` from state s. */
  function ScanFrom(s: ScanState, raw: string): (r: ScanState)
    requires s.matched < 3
    ensures r.matched < 3
  {
    if raw == [] then s else Feed(ScanFrom(s, raw[..|raw| - 1]), raw[|raw| - 1])
  }

  /** The splitter over the text one recv call scans. */
  function Scan(raw: string): ScanState
  {
    ScanFrom(Start, raw)
  }

  /** The bytes written back for n completed IAC DO TIMING-MARK sequences. */
  function Replies(n: nat): string
  {
    if n == 0 then "" else Replies(n - 1) + WillTimingMark
  }

  /** The splitter's loop, in place over its local variables. */
  method Split(raw: string) returns (lines: seq<string>, leftover: string, replies: nat)
    ensures Scan(raw).lines == lines && Scan(raw).line == leftover && Scan(raw).replies == replies
  {
    lines, leftover, replies := [], [], 0;
    var matched := 0;
    var i := 0;
    while i < |raw|
      invariant 0 <= i <= |raw| && matched < 3
      invariant Scan(raw[..i]) == ScanState(lines, leftover, matched, replies)
    {
      var c := raw[i];
      if Printable(c) {
        leftover := leftover + [c];
      }
      if Control(c) {
        if DoTimingMark[matched] == c {
          matched := matched + 1;
        } else {
          matched := 0;
        }
        if matched == 3 {
          matched := 0;
          replies := replies + 1;
        }
      }
      if Terminator(c) && leftover != [] {
        lines := lines + [leftover];
        leftover := [];
      }
      assert raw[..i + 1][..i] == raw[..i];
      i := i + 1;
    }
    assert raw[..i] == raw;
  }

  // ---------------------------------------------------------------------
  // What the splitter computes

  predicate AllPrintable(s: string)
  {
    forall i :: 0 <= i < |s| ==> Printable(s[i])
  }

  /** The printable bytes of s, in order. */
  function Printables(s: string): string
  {
    if s == [] then [] else Printables(s[..|s| - 1]) + (if Printable(s[|s| - 1]) then [s[|s| - 1]] else [])
  }

  /** The control bytes of s, in order. */
  function Controls(s: string): string
  {
    if s == [] then [] else Controls(s[..|s| - 1]) + (if Control(s[|s| - 1]) then [s[|s| - 1]] else [])
  }

  function Concat(ls: seq<string>): string
  {
    if ls == [] then [] else Concat(ls[..|ls| - 1]) + ls[|ls| - 1]
  }

  /** The reference reading of the input: cut at every terminator byte; the
      finished pieces and the unfinished tail. */
  function Pieces(raw: string): (seq<string>, string)
  {
    if raw == [] then ([], [])
    else
      var (done, cur) := Pieces(raw[..|raw| - 1]);
      var c := raw[|raw| - 1];
      if Terminator(c) then (done + [cur], []) else (done, cur + [c])
  }

  /** The printable text of each piece, dropping the pieces that have none. */
  function Cleaned(ps: seq<string>): seq<string>
  {
    if ps == [] then []
    else
      var p := Printables(ps[|ps| - 1]);
      Cleaned(ps[..|ps| - 1]) + (if p != [] then [p] else [])
  }

  /** Scanning one more byte is one more iteration of the loop. */
  lemma ScanSnoc(raw: string, c: char)
    ensures Scan(raw + [c]) == Feed(Scan(raw), c)
  {
    assert (raw + [c])[..|raw|] == raw;
  }

  lemma {:induction false} PrintablesAppend(s: string, c: char)
    ensures Printables(s + [c]) == Printables(s) + (if Printable(c) then [c] else [])
  {
    assert (s + [c])[..|s + [c]| - 1] == s;
  }

  /** The splitter agrees with the reference: the lines are the printable
      text of each terminated piece of the input that has any, and the
      carried text is the printable text of the unterminated tail. */
  lemma {:induction false} ScanMatchesPieces(raw: string)
    ensures Scan(raw).lines == Cleaned(Pieces(raw).0)
    ensures Scan(raw).line == Printables(Pieces(raw).1)
  {
    if raw != [] {
      var init := raw[..|raw| - 1];
      var c := raw[|raw| - 1];
      ScanMatchesPieces(init);
      var (done, cur) := Pieces(init);
      PrintablesAppend(cur, c);
      if Terminator(c) {
        assert (done + [cur])[..|done + [cur]| - 1] == done;
        assert Printables([]) == [];
      }
    }
  }

  /** Every line handed on, and the carried text, is non-empty printable
      text (no control byte, no terminator, nothing above 126). */
  lemma {:induction false} ScanLinesPrintable(s: ScanState, raw: string)
    requires s.matched < 3
    requires AllPrintable(s.line) && forall l :: l in s.lines ==> l != [] && AllPrintable(l)
    ensures var r := ScanFrom(s, raw);
      AllPrintable(r.line) && forall l :: l in r.lines ==> l != [] && AllPrintable(l)
  {
    if raw != [] {
      ScanLinesPrintable(s, raw[..|raw| - 1]);
    }
  }

  /** No printable byte is lost or reordered: the lines followed by the
      carried text spell exactly the printable bytes of the input. */
  lemma {:induction false} ScanKeepsPrintables(raw: string)
    ensures Concat(Scan(raw).lines) + Scan(raw).line == Printables(raw)
  {
    if raw != [] {
      var init := raw[..|raw| - 1];
      var c := raw[|raw| - 1];
      ScanKeepsPrintables(init);
      var s := Scan(init);
      assert raw == init + [c];
      PrintablesAppend(init, c);
      if Terminator(c) && (if Printable(c) then s.line + [c] else s.line) != [] {
        assert Concat(s.lines + [s.line])== Concat(s.lines) + s.line by {
          assert (s.lines + [s.line])[..|s.lines|] == s.lines;
        }
      }
    }
  }

  /** The counters after a byte depend only on the counters before it. */
  lemma FeedCounters(s1: ScanState, s2: ScanState, c: char)
    requires s1.matched < 3 && s1.matched == s2.matched && s1.replies == s2.replies
    ensures Feed(s1, c).matched == Feed(s2, c).matched && Feed(s1, c).replies == Feed(s2, c).replies
  {
  }

  /** A byte that is not a control byte leaves the counters alone. */
  lemma FeedTextKeepsCounters(s: ScanState, c: char)
    requires s.matched < 3 && !Control(c)
    ensures Feed(s, c).matched == s.matched && Feed(s, c).replies == s.replies
  {
  }

  /** Whether a reply is written depends only on the control bytes: printable
      text in between does not break an IAC DO TIMING-MARK sequence. */
  lemma {:induction false} RepliesFollowControls(raw: string)
    ensures Scan(raw).replies == Scan(Controls(raw)).replies
    ensures Scan(raw).matched == Scan(Controls(raw)).matched
  {
    if raw != [] {
      var init := raw[..|raw| - 1];
      var c := raw[|raw| - 1];
      RepliesFollowControls(init);
      assert raw == init + [c];
      ScanSnoc(init, c);
      if Control(c) {
        assert Controls(raw) == Controls(init) + [c];
        ScanSnoc(Controls(init), c);
        FeedCounters(Scan(init), Scan(Controls(init)), c);
      } else {
        assert Controls(raw) == Controls(init);
        FeedTextKeepsCounters(Scan(init), c);
      }
    }
  }

  /** A complete IAC DO TIMING-MARK after a point where nothing is matched
      earns exactly one reply and leaves the lines alone. */
  lemma {:induction false} DoTimingMarkAnswered(raw: string)
    requires Scan(raw).matched == 0
    ensures Scan(raw + DoTimingMark).replies == Scan(raw).replies + 1
    ensures Scan(raw + DoTimingMark).matched == 0
    ensures Scan(raw + DoTimingMark).lines == Scan(raw).lines
    ensures Scan(raw + DoTimingMark).line == Scan(raw).line
  {
    ScanSnoc(raw, '\U{FF}');
    ScanSnoc(raw + "\U{FF}", '\U{FD}');
    ScanSnoc(raw + "\U{FF}\U{FD}", '\U{06}');
    assert raw + "\U{FF}" + "\U{FD}" == raw + "\U{FF}\U{FD}";
    assert raw + "\U{FF}\U{FD}" + "\U{06}" == raw + DoTimingMark;
  }

  /** A CR LF pair ends the current line once: the second terminator finds
      the line empty and adds nothing. */
  lemma {:induction false} CrLfEndsOneLine(raw: string)
    ensures var s := Scan(raw); var r := Scan(raw + "\r\n");
      && r.lines == s.lines + (if s.line != [] then [s.line] else [])
      && r.line == []
  {
    ScanSnoc(raw, '\r');
    ScanSnoc(raw + "\r", '\n');
    assert raw + "\r" + "\n" == raw + "\r\n";
  }

  lemma {:induction false} ScanFromAppend(s: ScanState, a: string, b: string)
    requires s.matched < 3
    ensures ScanFrom(s, a + b) == ScanFrom(ScanFrom(s, a), b)
  {
    if b == [] {
      assert a + b == a;
    } else {
      assert (a + b)[..|a + b| - 1] == a + b[..|b| - 1];
      ScanFromAppend(s, a, b[..|b| - 1]);
    }
  }

  /** What the splitter does to lines and the current line does not depend
      on the lines already finished or on the matcher. */
  lemma {:induction false} ScanFromLinesOnly(s: ScanState, m: nat, n: nat, raw: string)
    requires s.matched < 3 && m < 3
    ensures ScanFrom(s, raw).lines == s.lines + ScanFrom(ScanState([], s.line, m, n), raw).lines
    ensures ScanFrom(s, raw).line == ScanFrom(ScanState([], s.line, m, n), raw).line
  {
    if raw != [] {
      ScanFromLinesOnly(s, m, n, raw[..|raw| - 1]);
    }
  }

  /** Printable text alone only grows the current line. */
  lemma {:induction false} ScanPrintableText(l: string)
    requires AllPrintable(l)
    ensures Scan(l) == ScanState([], l, 0, 0)
  {
    if l != [] {
      ScanPrintableText(l[..|l| - 1]);
      assert l == l[..|l| - 1] + [l[|l| - 1]];
    }
  }

  /** Carrying the unterminated text to the next read loses nothing: two
      reads give the same lines, and carry the same text, as one read of
      both chunks together. */
  lemma ChunkingInvisible(a: string, b: string)
    ensures Scan(a).lines + Scan(Scan(a).line + b).lines == Scan(a + b).lines
    ensures Scan(Scan(a).line + b).line == Scan(a + b).line
  {
    var s := Scan(a);
    ScanLinesPrintable(Start, a);
    ScanPrintableText(s.line);
    ScanFromAppend(Start, a, b);
    ScanFromAppend(Start, s.line, b);
    ScanFromLinesOnly(s, 0, 0, b);
    ScanFromLinesOnly(ScanState([], s.line, 0, 0), 0, 0, b);
  }

  // ---------------------------------------------------------------------
  // Outgoing framing

  /** `msg[-2:] == '\r\n'`. */
  predicate EndsWithCrlf(s: string)
  {
    |s| >= 2 && s[|s| - 2..] == "\r\n"
  }

  /** The text between the echo codes: the message, and CR LF when a newline
      is asked for and the message does not already end with one. */
  function Body(msg: string, newline: bool): string
  {
    if newline && !EndsWithCrlf(msg) then msg + "\r\n" else msg
  }

  /** Soul.send in MudObjects.py: WILL ECHO, the body, WONT ECHO. */
  function Frame(msg: string, newline: bool): string
  {
    WillEcho + Body(msg, newline) + WontEcho
  }

  /** With a newline asked for, the body ends the line exactly once: it
      starts with the message, ends with CR LF, adds at most those two bytes,
      and framing it again adds nothing; without one the body is the message. */
  lemma BodyEndsLineOnce(msg: string)
    ensures Body(msg, false) == msg
    ensures var b := Body(msg, true);
      && EndsWithCrlf(b) && b[..|msg|] == msg
      && (EndsWithCrlf(msg) ==> b == msg) && (!EndsWithCrlf(msg) ==> |b| == |msg| + 2)
      && Body(b, true) == b
  {
  }

  /** The message can be read back out of its frame. */
  lemma FrameUnwraps(msg: string, newline: bool)
    ensures var f := Frame(msg, newline);
      && |f| >= 6 && f[..3] == WillEcho && f[|f| - 3..] == WontEcho
      && f[3..|f| - 3] == Body(msg, newline)
  {
  }

  // ---------------------------------------------------------------------
  // Soul.loop

  predicate IsSpace(c: char) { c == ' ' || c == '\t' || c == '\n' || c == '\r' || c == '\U{0B}' || c == '\U{0C}' }

  /** The number of whitespace bytes at the start of s. */
  function LeadingSpaces(s: string): (n: nat)
    ensures n <= |s| && (forall i :: 0 <= i < n ==> IsSpace(s[i])) && (n < |s| ==> !IsSpace(s[n]))
  {
    if s == [] || !IsSpace(s[0]) then 0 else 1 + LeadingSpaces(s[1..])
  }

  /** The number of whitespace bytes at the end of s. */
  function TrailingSpaces(s: string): (n: nat)
    ensures n <= |s| && (forall i :: |s| - n <= i < |s| ==> IsSpace(s[i]))
    ensures n < |s| ==> !IsSpace(s[|s| - 1 - n])
  {
    if s == [] || !IsSpace(s[|s| - 1]) then 0 else 1 + TrailingSpaces(s[..|s| - 1])
  }

  /** Python's `s.strip()`: the slice left after dropping the whitespace at
      both ends; it starts and ends with a non-space byte, or is empty when
      s is all whitespace. */
  function Strip(s: string): (r: string)
    ensures r == [] <==> forall i :: 0 <= i < |s| ==> IsSpace(s[i])
    ensures r != [] ==> !IsSpace(r[0]) && !IsSpace(r[|r| - 1])
    ensures LeadingSpaces(s) + |r| <= |s| && r == s[LeadingSpaces(s)..LeadingSpaces(s) + |r|]
    ensures forall i :: LeadingSpaces(s) + |r| <= i < |s| ==> IsSpace(s[i])
    ensures (s != [] && !IsSpace(s[0]) && !IsSpace(s[|s| - 1])) ==> r == s
  {
    var a := LeadingSpaces(s);
    if a == |s| then []
    else
      var b := TrailingSpaces(s);
      assert b < |s| - a by {
        assert !IsSpace(s[a]);
      }
      s[a..|s| - b]
  }
}
