/**
 * The string handling of the triage stage (agents/llm_triage.py): the
 * digit masking behind `make_cluster_signature` (`re.sub(r"\d+", "#", s)`),
 * the signature itself, and the first lines of a log kept as the stack
 * excerpt (`str.splitlines` and `"\n".join`).
 *
 * `\d` also matches non-ASCII decimal digits in Python; here a digit is one
 * of '0'..'9'.
 */
module LogText {
  import opened JsonValues
  import opened Sequences

  // ---------------------------------------------------------------------
  // Digit masking
  // ---------------------------------------------------------------------

  predicate AllDigits(s: string) {
    forall i :: 0 <= i < |s| ==> IsDigit(s[i])
  }

  predicate NoDigits(s: string) {
    forall i :: 0 <= i < |s| ==> !IsDigit(s[i])
  }

  /**
   * The scan behind `re.sub(r"\d+", "#", s)`: the first digit of a run
   * becomes '#', the rest of the run is dropped; `inRun` says whether the
   * text before `s` ended in a digit.
   */
  function Mask(s: string, inRun: bool): string
    decreases |s|
  {
    if s == [] then []
    else if IsDigit(s[0]) then (if inRun then "" else "#") + Mask(s[1..], true)
    else [s[0]] + Mask(s[1..], false)
  }

  /** Every maximal run of digits becomes a single '#'. */
  function MaskDigits(s: string): string {
    Mask(s, false)
  }

  /** Whether the scan is inside a digit run after reading `s`. */
  function RunAfter(s: string, inRun: bool): bool {
    if s == [] then inRun else IsDigit(s[|s| - 1])
  }

  /** What the scan writes for one character. */
  function MaskHead(c: char, inRun: bool): string {
    if IsDigit(c) then (if inRun then "" else "#") else [c]
  }

  /** One step of the scan over `p` and over `p + x`. */
  lemma MaskStep(p: string, x: string, inRun: bool)
    requires p != []
    ensures Mask(p + x, inRun) == MaskHead(p[0], inRun) + Mask(p[1..] + x, IsDigit(p[0]))
    ensures Mask(p, inRun) == MaskHead(p[0], inRun) + Mask(p[1..], IsDigit(p[0]))
    ensures RunAfter(p[1..], IsDigit(p[0])) == RunAfter(p, inRun)
  {
    var px := p + x;
    assert px[0] == p[0];
    assert px[1..] == p[1..] + x;
    if p[1..] != [] {
      assert p[1..][|p[1..]| - 1] == p[|p| - 1];
    }
  }

  /** The scan of `p + x` is the scan of `p`, then the scan of `x` from where `p` left it. */
  lemma {:induction false} MaskAppend(p: string, x: string, inRun: bool)
    ensures Mask(p + x, inRun) == Mask(p, inRun) + Mask(x, RunAfter(p, inRun))
    decreases |p|
  {
    if p == [] {
      assert p + x == x;
    } else {
      MaskAppend(p[1..], x, IsDigit(p[0]));
      MaskStep(p, x, inRun);
    }
  }

  /** The masked string contains no digit. */
  lemma {:induction false} MaskNoDigits(s: string, inRun: bool)
    ensures NoDigits(Mask(s, inRun))
    decreases |s|
  {
    if s != [] {
      var m := Mask(s, inRun);
      var t := Mask(s[1..], IsDigit(s[0]));
      MaskNoDigits(s[1..], IsDigit(s[0]));
      var h := if IsDigit(s[0]) then (if inRun then "" else "#") else [s[0]];
      assert m == h + t;
      forall i | 0 <= i < |m|
        ensures !IsDigit(m[i])
      {
        if i >= |h| {
          assert m[i] == t[i - |h|];
        }
      }
    }
  }

  /** A string without digits is left as it is. */
  lemma {:induction false} MaskKeepsDigitFree(s: string, inRun: bool)
    requires NoDigits(s)
    ensures Mask(s, inRun) == s
    decreases |s|
  {
    if s != [] {
      assert NoDigits(s[1..]) by {
        forall i | 0 <= i < |s[1..]|
          ensures !IsDigit(s[1..][i])
        {
          assert s[1..][i] == s[i + 1];
        }
      }
      MaskKeepsDigitFree(s[1..], false);
      assert s == [s[0]] + s[1..];
    }
  }

  /** Masking twice masks once. */
  lemma MaskIdempotent(s: string)
    ensures MaskDigits(MaskDigits(s)) == MaskDigits(s)
  {
    MaskNoDigits(s, false);
    MaskKeepsDigitFree(MaskDigits(s), false);
  }

  /** A run of digits on its own masks to one '#', or to nothing when it continues a run. */
  lemma {:induction false} MaskOfRun(d: string, inRun: bool)
    requires d != [] && AllDigits(d)
    ensures Mask(d, inRun) == if inRun then "" else "#"
    decreases |d|
  {
    if |d| > 1 {
      assert AllDigits(d[1..]) by {
        forall i | 0 <= i < |d[1..]|
          ensures IsDigit(d[1..][i])
        {
          assert d[1..][i] == d[i + 1];
        }
      }
      MaskOfRun(d[1..], true);
    } else {
      assert d[1..] == [];
    }
  }

  /** Text that does not start with a digit is masked the same inside or outside a run. */
  lemma MaskAfterRun(q: string)
    requires q == [] || !IsDigit(q[0])
    ensures Mask(q, true) == Mask(q, false)
  {
  }

  /**
   * Replacing one maximal digit run by another of any length leaves the
   * masked string unchanged.
   */
  lemma DigitRunsIgnored(p: string, d1: string, d2: string, q: string)
    requires p == [] || !IsDigit(p[|p| - 1])
    requires d1 != [] && AllDigits(d1) && d2 != [] && AllDigits(d2)
    requires q == [] || !IsDigit(q[0])
    ensures MaskDigits(p + d1 + q) == MaskDigits(p + d2 + q)
  {
    assert RunAfter(p, false) == false;
    MaskAppend(p + d1, q, false);
    MaskAppend(p + d2, q, false);
    MaskAppend(p, d1, false);
    MaskAppend(p, d2, false);
    MaskOfRun(d1, false);
    MaskOfRun(d2, false);
    assert RunAfter(p + d1, false) == RunAfter(p + d2, false) == true;
  }

  // ---------------------------------------------------------------------
  // The signature
  // ---------------------------------------------------------------------

  predicate IsHexDigit(c: char) {
    '0' <= c <= '9' || 'a' <= c <= 'f'
  }

  /** A SHA-1 hex digest: 40 lower-case hex characters. */
  type HexDigest = s: string | |s| == 40 && forall i :: 0 <= i < |s| ==> IsHexDigit(s[i])
    witness "0000000000000000000000000000000000000000"

  /** SHA-1 of the UTF-8 encoding of a string, as a hex digest. */
  type Sha1 = string -> HexDigest

  /** `(java_class or "") + "|" + (message or "")`. */
  function SignatureBase(javaClass: Json, message: Json): string {
    Text(javaClass) + "|" + Text(message)
  }

  /** `make_cluster_signature`: the first 12 hex characters of the SHA-1 of the masked base. */
  function Signature(sha1: Sha1, javaClass: Json, message: Json): (r: string)
    ensures |r| == 12 && forall i :: 0 <= i < 12 ==> IsHexDigit(r[i])
  {
    sha1(MaskDigits(SignatureBase(javaClass, message)))[..12]
  }

  /** The signature is a prefix of the SHA-1 digest of a digit-free string. */
  lemma SignatureOfMasked(sha1: Sha1, javaClass: Json, message: Json)
    ensures exists m :: NoDigits(m) && Signature(sha1, javaClass, message) == sha1(m)[..12]
  {
    MaskNoDigits(SignatureBase(javaClass, message), false);
  }

  lemma BaseOfMessage(javaClass: Json, p: string, d: string, q: string)
    ensures SignatureBase(javaClass, JStr(p + d + q)) == (Text(javaClass) + "|" + p) + d + q
  {
  }

  /**
   * Two messages that differ only in one maximal digit run give the same
   * signature, whatever the class.
   */
  lemma SignatureIgnoresDigitRuns(sha1: Sha1, javaClass: Json, p: string, d1: string, d2: string, q: string)
    requires p == [] || !IsDigit(p[|p| - 1])
    requires d1 != [] && AllDigits(d1) && d2 != [] && AllDigits(d2)
    requires q == [] || !IsDigit(q[0])
    ensures Signature(sha1, javaClass, JStr(p + d1 + q)) == Signature(sha1, javaClass, JStr(p + d2 + q))
  {
    var pre := Text(javaClass) + "|" + p;
    assert pre[|pre| - 1] == if p == [] then '|' else p[|p| - 1];
    DigitRunsIgnored(pre, d1, d2, q);
    BaseOfMessage(javaClass, p, d1, q);
    BaseOfMessage(javaClass, p, d2, q);
  }

  /** "id 123" and "id 4567" share a signature. */
  lemma SignatureExample(sha1: Sha1, javaClass: Json)
    ensures Signature(sha1, javaClass, JStr("id 123")) == Signature(sha1, javaClass, JStr("id 4567"))
  {
    assert "id 123" == "id " + "123" + "";
    assert "id 4567" == "id " + "4567" + "";
    SignatureIgnoresDigitRuns(sha1, javaClass, "id ", "123", "4567", "");
  }

  // ---------------------------------------------------------------------
  // Lines
  // ---------------------------------------------------------------------

  /** The characters `str.splitlines` breaks at. */
  predicate IsLineBreak(c: char) {
    c == '\n' || c == '\r' || c == '\U{000B}' || c == '\U{000C}' || c == '\U{001C}' || c == '\U{001D}'
    || c == '\U{001E}' || c == '\U{0085}' || c == '\U{2028}' || c == '\U{2029}'
  }

  /** The index of the first line break, or the length when there is none. */
  function LineEnd(s: string): (e: nat)
    ensures e <= |s|
    decreases |s|
  {
    if s == [] then 0
    else if IsLineBreak(s[0]) then 0
    else LineEnd(s[1..]) + 1
  }

  /** Before the line end there is no break; at it there is one. */
  lemma {:induction false} LineEndSpec(s: string)
    ensures forall i :: 0 <= i < LineEnd(s) ==> !IsLineBreak(s[i])
    ensures LineEnd(s) < |s| ==> IsLineBreak(s[LineEnd(s)])
    decreases |s|
  {
    if s != [] && !IsLineBreak(s[0]) {
      LineEndSpec(s[1..]);
      forall i | 1 <= i < LineEnd(s)
        ensures !IsLineBreak(s[i])
      {
        assert s[i] == s[1..][i - 1];
      }
    }
  }

  /** The length of the break at index e: two for "\r\n", else one. */
  function BreakLength(s: string, e: nat): nat
    requires e < |s|
  {
    if s[e] == '\r' && e + 1 < |s| && s[e + 1] == '\n' then 2 else 1
  }

  /** `s.splitlines()`: the lines without their breaks; no line follows a final break. */
  function SplitLines(s: string): seq<string>
    decreases |s|
  {
    if s == [] then []
    else
      var e := LineEnd(s);
      if e == |s| then [s]
      else [s[..e]] + SplitLines(s[e + BreakLength(s, e)..])
  }

  /** `"\n".join(lines)`. */
  function JoinLines(ls: seq<string>): string
    decreases |ls|
  {
    if ls == [] then ""
    else if |ls| == 1 then ls[0]
    else ls[0] + "\n" + JoinLines(ls[1..])
  }

  const ExcerptLines: nat := 15

  /** `"\n".join(log.splitlines()[:15])`. */
  function StackExcerpt(log: string): string {
    var ls := SplitLines(log);
    JoinLines(ls[..Min(ExcerptLines, |ls|)])
  }

  /** No line of `splitlines` contains a line break. */
  lemma {:induction false} LinesHaveNoBreaks(s: string)
    ensures forall j, i :: 0 <= j < |SplitLines(s)| && 0 <= i < |SplitLines(s)[j]| ==> !IsLineBreak(SplitLines(s)[j][i])
    decreases |s|
  {
    if s != [] {
      var e := LineEnd(s);
      LineEndSpec(s);
      if e < |s| {
        var rest := s[e + BreakLength(s, e)..];
        LinesHaveNoBreaks(rest);
        var ls := SplitLines(s);
        assert ls == [s[..e]] + SplitLines(rest);
        forall j, i | 0 <= j < |ls| && 0 <= i < |ls[j]|
          ensures !IsLineBreak(ls[j][i])
        {
          if j > 0 {
            assert ls[j] == SplitLines(rest)[j - 1];
          } else {
            assert ls[0][i] == s[i];
          }
        }
      }
    }
  }

  predicate OnlyNewlineBreaks(s: string) {
    forall i :: 0 <= i < |s| && IsLineBreak(s[i]) ==> s[i] == '\n'
  }

  /** The first line of a log broken by '\n' only, and the rest after its break. */
  lemma PlainLineStep(s: string)
    requires OnlyNewlineBreaks(s) && LineEnd(s) < |s|
    ensures SplitLines(s) == [s[..LineEnd(s)]] + SplitLines(s[LineEnd(s) + 1..])
    ensures s == s[..LineEnd(s)] + "\n" + s[LineEnd(s) + 1..]
    ensures OnlyNewlineBreaks(s[LineEnd(s) + 1..])
  {
    var e := LineEnd(s);
    PlainBreak(s);
    PlainRest(s, e);
    Rejoin(s, e);
  }

  /** The break at the line end is a single '\n'. */
  lemma PlainBreak(s: string)
    requires OnlyNewlineBreaks(s) && LineEnd(s) < |s|
    ensures s[LineEnd(s)] == '\n' && BreakLength(s, LineEnd(s)) == 1
  {
    LineEndSpec(s);
  }

  lemma Rejoin(s: string, e: nat)
    requires e < |s| && s[e] == '\n'
    ensures s == s[..e] + "\n" + s[e + 1..]
  {
  }

  lemma PlainRest(s: string, e: nat)
    requires OnlyNewlineBreaks(s) && e < |s|
    ensures OnlyNewlineBreaks(s[e + 1..])
  {
    var rest := s[e + 1..];
    forall i | 0 <= i < |rest| && IsLineBreak(rest[i])
      ensures rest[i] == '\n'
    {
      assert rest[i] == s[e + 1 + i];
    }
  }

  lemma SplitLinesNonEmpty(s: string)
    ensures s != [] ==> SplitLines(s) != []
  {
  }

  lemma JoinCons(l: string, t: seq<string>)
    requires t != []
    ensures JoinLines([l] + t) == l + "\n" + JoinLines(t)
  {
    assert ([l] + t)[1..] == t;
  }

  lemma PrefixCons(h: string, a: string, b: string)
    requires a <= b
    ensures h + a <= h + b
  {
    assert (h + b)[..|h + a|] == h + a;
  }

  /** When '\n' is the only kind of break in the log, its first n lines joined back are a prefix of it. */
  lemma {:induction false} FirstLinesArePrefix(s: string, n: nat)
    requires OnlyNewlineBreaks(s) && n > 0
    ensures JoinLines(SplitLines(s)[..Min(n, |SplitLines(s)|)]) <= s
    decreases |s|
  {
    if s != [] {
      var e := LineEnd(s);
      if e == |s| {
        assert SplitLines(s) == [s];
      } else {
        PlainLineStep(s);
        var rest := s[e + 1..];
        if n > 1 && SplitLines(rest) != [] {
          FirstLinesArePrefix(rest, n - 1);
        }
        FirstLinesStep(s, n);
      }
    }
  }

  /** The first line, then the first n - 1 lines of the rest. */
  lemma FirstLinesStep(s: string, n: nat)
    requires OnlyNewlineBreaks(s) && n > 0 && LineEnd(s) < |s|
    requires SplitLines(s) == [s[..LineEnd(s)]] + SplitLines(s[LineEnd(s) + 1..])
    requires s == s[..LineEnd(s)] + "\n" + s[LineEnd(s) + 1..]
    requires var lr := SplitLines(s[LineEnd(s) + 1..]);
             n > 1 && lr != [] ==> JoinLines(lr[..Min(n - 1, |lr|)]) <= s[LineEnd(s) + 1..]
    ensures JoinLines(SplitLines(s)[..Min(n, |SplitLines(s)|)]) <= s
  {
    var e := LineEnd(s);
    var ls := SplitLines(s);
    var kept := ls[..Min(n, |ls|)];
    var line, rest := s[..e], s[e + 1..];
    var lr := SplitLines(rest);
    if n == 1 || lr == [] {
      assert kept == [line];
      assert s[..|line|] == line;
    } else {
      var kr := lr[..Min(n - 1, |lr|)];
      assert kept == [line] + kr;
      JoinCons(line, kr);
      PrefixCons(line + "\n", JoinLines(kr), rest);
    }
  }

  /** ... and a log of at most n such lines is all kept, but for one final '\n'. */
  lemma {:induction false} ShortLogKept(s: string)
    requires OnlyNewlineBreaks(s)
    ensures s == JoinLines(SplitLines(s)) || s == JoinLines(SplitLines(s)) + "\n"
    decreases |s|
  {
    if s != [] {
      var e := LineEnd(s);
      if e == |s| {
        assert SplitLines(s) == [s];
      } else {
        PlainLineStep(s);
        var rest := s[e + 1..];
        var lr := SplitLines(rest);
        SplitLinesNonEmpty(rest);
        if lr != [] {
          ShortLogKept(rest);
          assert SplitLines(s)[1..] == lr;
        }
      }
    }
  }

  lemma {:induction false} CountAppend(a: string, b: string, c: char)
    ensures Count(a + b, c) == Count(a, c) + Count(b, c)
    decreases |b|
  {
    if b == [] {
      assert a + b == a;
    } else {
      CountAppend(a, b[..|b| - 1], c);
      assert (a + b)[..|a + b| - 1] == a + b[..|b| - 1];
    }
  }

  lemma {:induction false} CountAbsent(s: string, c: char)
    requires forall i :: 0 <= i < |s| ==> s[i] != c
    ensures Count(s, c) == 0
    decreases |s|
  {
    if s != [] {
      CountAbsent(s[..|s| - 1], c);
    }
  }

  /** Joining k break-free lines puts k - 1 newlines between them. */
  lemma {:induction false} JoinNewlines(ls: seq<string>)
    requires ls != []
    requires forall j, i :: 0 <= j < |ls| && 0 <= i < |ls[j]| ==> !IsLineBreak(ls[j][i])
    ensures Count(JoinLines(ls), '\n') == |ls| - 1
    decreases |ls|
  {
    CountAbsent(ls[0], '\n');
    if |ls| > 1 {
      JoinNewlines(ls[1..]);
      CountAppend(ls[0], "\n", '\n');
      CountAppend(ls[0] + "\n", JoinLines(ls[1..]), '\n');
      assert Count("\n", '\n') == 1 by {
        assert "\n"[..0] == [];
      }
    }
  }

  /** The stack excerpt holds at most 15 lines: at most 14 newlines. */
  lemma ExcerptNewlines(log: string)
    ensures Count(StackExcerpt(log), '\n') < ExcerptLines
  {
    var ls := SplitLines(log);
    var kept := ls[..Min(ExcerptLines, |ls|)];
    LinesHaveNoBreaks(log);
    if kept != [] {
      forall j, i | 0 <= j < |kept| && 0 <= i < |kept[j]|
        ensures !IsLineBreak(kept[j][i])
      {
        assert kept[j] == ls[j];
      }
      JoinNewlines(kept);
    }
  }

  /** For a log broken by '\n' only, the excerpt is a prefix of the log, and the whole log when it is at most 15 lines long. */
  lemma ExcerptOfPlainLog(log: string)
    requires OnlyNewlineBreaks(log)
    ensures StackExcerpt(log) <= log
    ensures |SplitLines(log)| <= ExcerptLines ==> log == StackExcerpt(log) || log == StackExcerpt(log) + "\n"
  {
    FirstLinesArePrefix(log, ExcerptLines);
    var ls := SplitLines(log);
    if |ls| <= ExcerptLines {
      ShortLogKept(log);
      assert ls[..Min(ExcerptLines, |ls|)] == ls;
    }
  }
}
