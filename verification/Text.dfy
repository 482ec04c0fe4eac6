/** Strings as the Python code handles them: white space, line splitting, joining and
    stripping.  Everything is stated on `seq<char>`; no Unicode normalisation is involved. */
module Text {

  /** The separators at which `str.splitlines` breaks a text. */
  predicate IsLineBreak(c: char) {
    || '\n' <= c <= '\r'
    || '\U{1C}' <= c <= '\U{1E}'
    || c == '\U{85}' || c == '\U{2028}' || c == '\U{2029}'
  }

  /** `str.isspace` for one character, which is also the class `\s` of a text pattern. */
  predicate IsSpace(c: char) {
    || IsLineBreak(c)
    || c == '\t' || c == '\U{1F}' || c == ' ' || c == '\U{A0}' || c == '\U{1680}'
    || '\U{2000}' <= c <= '\U{200A}'
    || c == '\U{202F}' || c == '\U{205F}' || c == '\U{3000}'
  }

  predicate IsBlank(s: string) {
    forall i | 0 <= i < |s| :: IsSpace(s[i])
  }

  /** A line as `splitlines` produces it: no separator inside. */
  predicate IsLine(s: string) {
    forall i | 0 <= i < |s| :: !IsLineBreak(s[i])
  }

  predicate AreLines(lines: seq<string>) {
    forall i | 0 <= i < |lines| :: IsLine(lines[i])
  }

  // ---------- stripping ----------

  /** First position at or after i that is not white space. */
  function SkipSpaces(s: string, i: nat): (n: nat)
    requires i <= |s|
    ensures i <= n <= |s|
    decreases |s| - i
  {
    if i == |s| || !IsSpace(s[i]) then i else SkipSpaces(s, i + 1)
  }

  /** Last position at or before i that does not follow white space. */
  function BackSpaces(s: string, i: nat): (n: nat)
    requires i <= |s|
    ensures n <= i
  {
    if i == 0 || !IsSpace(s[i - 1]) then i else BackSpaces(s, i - 1)
  }

  function LStrip(s: string): string {
    s[SkipSpaces(s, 0)..]
  }

  function RStrip(s: string): string {
    s[..BackSpaces(s, |s|)]
  }

  lemma {:induction false} SkipSpacesFirst(s: string, i: nat, n: nat)
    requires i <= n <= |s| && (n < |s| ==> !IsSpace(s[n]))
    requires forall k | i <= k < n :: IsSpace(s[k])
    ensures SkipSpaces(s, i) == n
    decreases n - i
  {
    if i < n {
      SkipSpacesFirst(s, i + 1, n);
    }
  }

  lemma {:induction false} BackSpacesLast(s: string, i: nat, n: nat)
    requires n <= i <= |s| && (n > 0 ==> !IsSpace(s[n - 1]))
    requires forall k | n <= k < i :: IsSpace(s[k])
    ensures BackSpaces(s, i) == n
  {
    if n < i {
      BackSpacesLast(s, i - 1, n);
    }
  }

  lemma {:induction false} SkipSpacesSkipsSpaces(s: string, i: nat)
    requires i <= |s|
    ensures forall k | i <= k < SkipSpaces(s, i) :: IsSpace(s[k])
    ensures SkipSpaces(s, i) < |s| ==> !IsSpace(s[SkipSpaces(s, i)])
    decreases |s| - i
  {
    if i < |s| && IsSpace(s[i]) {
      SkipSpacesSkipsSpaces(s, i + 1);
    }
  }

  lemma {:induction false} BackSpacesSkipsSpaces(s: string, i: nat)
    requires i <= |s|
    ensures forall k | BackSpaces(s, i) <= k < i :: IsSpace(s[k])
    ensures BackSpaces(s, i) > 0 ==> !IsSpace(s[BackSpaces(s, i) - 1])
  {
    if i > 0 && IsSpace(s[i - 1]) {
      BackSpacesSkipsSpaces(s, i - 1);
    }
  }

  /** `lstrip` cuts exactly the longest blank prefix. */
  lemma LStripCut(s: string)
    ensures |LStrip(s)| <= |s| && LStrip(s) == s[|s| - |LStrip(s)|..]
    ensures IsBlank(s[..|s| - |LStrip(s)|])
    ensures LStrip(s) == "" || !IsSpace(LStrip(s)[0])
  {
    SkipSpacesSkipsSpaces(s, 0);
  }

  /** `rstrip` cuts exactly the longest blank suffix. */
  lemma RStripCut(s: string)
    ensures |RStrip(s)| <= |s| && RStrip(s) == s[..|RStrip(s)|]
    ensures IsBlank(s[|RStrip(s)|..])
    ensures RStrip(s) == "" || !IsSpace(RStrip(s)[|RStrip(s)| - 1])
  {
    BackSpacesSkipsSpaces(s, |s|);
  }

  function Strip(s: string): string {
    RStrip(LStrip(s))
  }

  /** A text that `strip` leaves alone. */
  predicate IsStripped(s: string) {
    s == "" || (!IsSpace(s[0]) && !IsSpace(s[|s| - 1]))
  }

  lemma StripBlank(s: string)
    ensures IsBlank(s) <==> Strip(s) == ""
  {
    var l := LStrip(s);
    LStripCut(s);
    RStripCut(l);
    assert s == s[..|s| - |l|] + l;
    if l == "" {
      assert s[..|s|] == s;
    } else {
      assert l[0] == s[|s| - |l|];
    }
  }

  lemma StripStripped(s: string)
    requires IsStripped(s)
    ensures Strip(s) == s
  {}

  lemma RStripAppend(a: string, b: string)
    ensures IsBlank(b) ==> RStrip(a + b) == RStrip(a)
    ensures !IsBlank(b) ==> RStrip(a + b) == a + RStrip(b)
  {
    var s := a + b;
    if IsBlank(b) {
      BackSpacesSkipsSpaces(a, |a|);
      var n := BackSpaces(a, |a|);
      assert forall k | n <= k < |s| :: IsSpace(s[k]) by {
        assert forall k | |a| <= k < |s| :: s[k] == b[k - |a|];
      }
      BackSpacesLast(s, |s|, n);
    } else {
      BackSpacesSkipsSpaces(b, |b|);
      var n := BackSpaces(b, |b|);
      assert n > 0;
      assert forall k | |a| <= k < |s| :: s[k] == b[k - |a|];
      BackSpacesLast(s, |s|, |a| + n);
      assert s[..|a| + n] == a + b[..n];
    }
  }

  lemma LStripAppend(a: string, b: string)
    requires !IsBlank(a)
    ensures LStrip(a + b) == LStrip(a) + b
  {
    SkipSpacesSkipsSpaces(a, 0);
    var n := SkipSpaces(a, 0);
    SkipSpacesFirst(a + b, 0, n);
    assert (a + b)[n..] == a[n..] + b;
  }

  lemma LStripBlankPrefix(a: string, b: string)
    requires IsBlank(a)
    ensures LStrip(a + b) == LStrip(b)
  {
    SkipSpacesSkipsSpaces(b, 0);
    var n := SkipSpaces(b, 0);
    assert forall k | |a| <= k < |a + b| :: (a + b)[k] == b[k - |a|];
    SkipSpacesFirst(a + b, 0, |a| + n);
    assert (a + b)[|a| + n..] == b[n..];
  }

  /** `re.sub(r"\s+", "", s)`. */
  function Squeeze(s: string): (r: string)
    ensures r == "" <==> IsBlank(s)
    ensures |r| <= |s|
  {
    if s == "" then ""
    else if IsSpace(s[0]) then Squeeze(s[1..])
    else [s[0]] + Squeeze(s[1..])
  }

  lemma {:induction false} SqueezeAppend(a: string, b: string)
    ensures Squeeze(a + b) == Squeeze(a) + Squeeze(b)
  {
    if a == "" {
      assert a + b == b;
    } else {
      assert (a + b)[1..] == a[1..] + b;
      SqueezeAppend(a[1..], b);
    }
  }

  /** White space by code: the 29 characters Python calls space. */
  lemma SpaceCodes(c: char)
    ensures IsSpace(c) <==>
              || 9 <= c as int <= 13 || 28 <= c as int <= 32
              || c as int in {133, 160, 5760, 8232, 8233, 8239, 8287, 12288}
              || 8192 <= c as int <= 8202
    ensures IsLineBreak(c) <==>
              10 <= c as int <= 13 || 28 <= c as int <= 30 || c as int in {133, 8232, 8233}
  {
    var codes := {133, 160, 5760, 8232, 8233, 8239, 8287, 12288};
    assert c as int in codes <==>
      c in {'\U{85}', '\U{A0}', '\U{1680}', '\U{2028}', '\U{2029}', '\U{202F}', '\U{205F}', '\U{3000}'};
  }

  predicate Ascending(at: seq<nat>) {
    forall i, j | 0 <= i < j < |at| :: at[i] < at[j]
  }

  /** Some of the positions below n, from first to last. */
  predicate Positions(at: seq<nat>, n: nat) {
    Ascending(at) && forall k | 0 <= k < |at| :: at[k] < n
  }

  lemma AscendingSnoc(at: seq<nat>, n: nat)
    requires Ascending(at) && forall j | j in at :: j < n
    ensures Ascending(at + [n])
    ensures forall j: nat :: j in at + [n] <==> j == n || j in at
  {
    assert forall k | 0 <= k < |at| :: at[k] in at;
    assert (at + [n])[|at|] == n;
  }

  /** The positions of the characters of a text that are not white space, from left to right. */
  ghost predicate InkAt(s: string, at: seq<nat>) {
    && Ascending(at)
    && (forall k | 0 <= k < |at| :: at[k] < |s| && !IsSpace(s[at[k]]))
    && (forall i: nat | i < |s| && !IsSpace(s[i]) :: i in at)
  }

  /** Read at these positions, the text is r. */
  predicate ReadsAt(r: string, s: string, at: seq<nat>) {
    |r| == |at| && forall k | 0 <= k < |at| :: at[k] < |s| && r[k] == s[at[k]]
  }

  lemma ReadsSnoc(r: string, s: string, at: seq<nat>)
    requires s != "" && ReadsAt(r, s[..|s| - 1], at)
    ensures ReadsAt(r, s, at) && ReadsAt(r + [s[|s| - 1]], s, at + [|s| - 1])
  {}

  lemma SqueezeStep(s: string, before: seq<nat>) returns (at: seq<nat>)
    requires s != "" && InkAt(s[..|s| - 1], before) && ReadsAt(Squeeze(s[..|s| - 1]), s[..|s| - 1], before)
    ensures InkAt(s, at) && ReadsAt(Squeeze(s), s, at)
  {
    hide *;
    InkSnoc(s, before);
    SqueezeSnoc(s);
    ReadsSnoc(Squeeze(s[..|s| - 1]), s, before);
    if IsSpace(s[|s| - 1]) {
      SqueezeDropped(s);
      at := before;
    } else {
      at := before + [|s| - 1];
    }
  }

  lemma NoInk() returns (at: seq<nat>)
    ensures InkAt("", at) && ReadsAt(Squeeze(""), "", at)
  {
    at := [];
  }

  /** Squeezing reads exactly the positions of the characters that are not white space. */
  lemma {:induction false} SqueezeIs(s: string) returns (at: seq<nat>)
    ensures InkAt(s, at) && ReadsAt(Squeeze(s), s, at)
  {
    hide *;
    if s == "" {
      at := NoInk();
    } else {
      at := SqueezeIs(s[..|s| - 1]);
      at := SqueezeStep(s, at);
    }
  }

  lemma SqueezeDropped(s: string)
    requires s != "" && IsSpace(s[|s| - 1])
    ensures Squeeze(s) == Squeeze(s[..|s| - 1])
  {
    hide *;
    SqueezeSnoc(s);
  }

  lemma InkBounds(s: string, at: seq<nat>)
    requires InkAt(s, at)
    ensures forall k | 0 <= k < |at| :: at[k] < |s|
  {}

  lemma InkSnoc(s: string, before: seq<nat>)
    requires s != "" && InkAt(s[..|s| - 1], before)
    ensures InkAt(s, if IsSpace(s[|s| - 1]) then before else before + [|s| - 1])
  {
    hide IsSpace;
    var n: nat := |s| - 1;
    var at := if IsSpace(s[n]) then before else before + [n];
    forall k | 0 <= k < |at| ensures at[k] < |s| && !IsSpace(s[at[k]]) {
      assert k < |before| ==> at[k] == before[k] && s[at[k]] == s[..n][at[k]];
    }
    forall i: nat | i < |s| && !IsSpace(s[i]) ensures i in at {
      if i < n {
        assert s[..n][i] == s[i] && i in before;
      } else {
        assert at[|before|] == n;
      }
    }
  }

  lemma SqueezeOne(c: char)
    ensures Squeeze([c]) == if IsSpace(c) then "" else [c]
  {
    hide IsSpace;
    assert [c][1..] == "";
  }

  lemma SqueezePlus(s: string, c: char)
    ensures Squeeze(s + [c]) == Squeeze(s) + if IsSpace(c) then "" else [c]
  {
    hide *;
    SqueezeAppend(s, [c]);
    SqueezeOne(c);
  }

  lemma SqueezeSnoc(s: string)
    requires s != ""
    ensures Squeeze(s) == Squeeze(s[..|s| - 1]) + if IsSpace(s[|s| - 1]) then "" else [s[|s| - 1]]
  {
    hide *;
    InitLast(s);
    SqueezePlus(s[..|s| - 1], s[|s| - 1]);
  }

  lemma InitLast(s: string)
    requires s != ""
    ensures s[..|s| - 1] + [s[|s| - 1]] == s
  {}

  lemma {:induction false} InkCount(s: string)
    ensures |Squeeze(s)| == |set i: nat | i < |s| && !IsSpace(s[i])|
  {
    hide IsSpace, Squeeze;
    var ink := set i: nat | i < |s| && !IsSpace(s[i]);
    if s == "" {
      assert ink == {} && Squeeze(s) == s by { SqueezeNothing(); }
    } else {
      var n: nat := |s| - 1;
      var before := set i: nat | i < |s[..n]| && !IsSpace(s[..n][i]);
      InkCount(s[..n]);
      SqueezeSnoc(s);
      assert ink == if IsSpace(s[n]) then before else before + {n};
    }
  }

  lemma SqueezeNothing()
    ensures Squeeze("") == ""
  {}

  /** The list of these positions is unique. */
  lemma InkUnique(s: string, at: seq<nat>, other: seq<nat>)
    requires InkAt(s, at) && InkAt(s, other)
    ensures at == other
  {
    SameAscending(at, other);
  }

  lemma {:induction false} SameAscending(a: seq<nat>, b: seq<nat>)
    requires Ascending(a) && Ascending(b) && forall i :: i in a <==> i in b
    ensures a == b
  {
    assert a != [] ==> a[0] in a;
    assert b != [] ==> b[0] in b;
    if a != [] {
      var m, n := |a| - 1, |b| - 1;
      assert a[m] in b && b[n] in a;
      assert a[m] == b[n];
      forall i ensures i in a[..m] <==> i in b[..n] {
        LastOut(a, i);
        LastOut(b, i);
      }
      SameAscending(a[..m], b[..n]);
      assert a == a[..m] + [a[m]] && b == b[..n] + [b[n]];
    }
  }

  lemma LastOut(a: seq<nat>, i: nat)
    requires Ascending(a) && a != []
    ensures i in a[..|a| - 1] <==> i in a && i != a[|a| - 1]
  {
    if i in a {
      var k :| 0 <= k < |a| && a[k] == i;
    }
  }

  /** Two texts with the same characters in the same order, white space aside. */
  ghost predicate SameInk(a: string, b: string) {
    exists at, bt :: InkAt(a, at) && InkAt(b, bt) && SameAt(a, at, b, bt)
  }

  ghost predicate SameAt(a: string, at: seq<nat>, b: string, bt: seq<nat>) {
    && |at| == |bt|
    && forall k | 0 <= k < |at| :: at[k] < |a| && bt[k] < |b| && a[at[k]] == b[bt[k]]
  }

  lemma SameInkIs(a: string, b: string)
    ensures SameInk(a, b) <==> Squeeze(a) == Squeeze(b)
  {
    hide InkAt, Squeeze;
    var at := SqueezeIs(a);
    var bt := SqueezeIs(b);
    InkBounds(a, at);
    InkBounds(b, bt);
    if SameInk(a, b) {
      var at', bt' :| InkAt(a, at') && InkAt(b, bt') && SameAt(a, at', b, bt');
      InkUnique(a, at, at');
      InkUnique(b, bt, bt');
    }
    if Squeeze(a) == Squeeze(b) {
      assert SameAt(a, at, b, bt);
    }
  }

  lemma Assoc<T>(a: seq<T>, b: seq<T>, c: seq<T>)
    ensures (a + b) + c == a + (b + c)
  {}

  // ---------- joining ----------

  /** `sep.join(parts)`. */
  function Join(parts: seq<string>, sep: string): string {
    if |parts| == 0 then ""
    else if |parts| == 1 then parts[0]
    else parts[0] + sep + Join(parts[1..], sep)
  }

  function JoinLines(lines: seq<string>): string {
    Join(lines, "\n")
  }

  function Concat(parts: seq<string>): string {
    if parts == [] then "" else parts[0] + Concat(parts[1..])
  }

  lemma {:induction false} ConcatAppend(a: seq<string>, b: seq<string>)
    ensures Concat(a + b) == Concat(a) + Concat(b)
  {
    if a == [] {
      assert a + b == b;
    } else {
      assert (a + b)[1..] == a[1..] + b;
      ConcatAppend(a[1..], b);
    }
  }

  lemma {:induction false} JoinAppend(a: seq<string>, b: seq<string>, sep: string)
    requires a != [] && b != []
    ensures Join(a + b, sep) == Join(a, sep) + sep + Join(b, sep)
    ensures |a| == 1 ==> Join(a, sep) == a[0]
  {
    assert (a + b)[1..] == a[1..] + b;
    if |a| > 1 {
      JoinAppend(a[1..], b, sep);
    } else {
      assert a[1..] + b == b;
    }
  }

  // ---------- splitting ----------

  /** Position of the first separator at or after i, or the length of the text. */
  function BreakFrom(s: string, i: nat): (n: nat)
    requires i <= |s|
    ensures i <= n <= |s|
    decreases |s| - i
  {
    if i == |s| || IsLineBreak(s[i]) then i else BreakFrom(s, i + 1)
  }

  function BreakAt(s: string): (n: nat)
    ensures n <= |s|
  {
    BreakFrom(s, 0)
  }

  lemma {:induction false} BreakFromIsFirst(s: string, i: nat, n: nat)
    requires i <= n <= |s| && (n < |s| ==> IsLineBreak(s[n]))
    requires forall k | i <= k < n :: !IsLineBreak(s[k])
    ensures BreakFrom(s, i) == n
    decreases n - i
  {
    if i < n {
      BreakFromIsFirst(s, i + 1, n);
    }
  }

  lemma {:induction false} BreakFromBreaks(s: string, i: nat)
    requires i <= |s|
    ensures forall k | i <= k < BreakFrom(s, i) :: !IsLineBreak(s[k])
    ensures BreakFrom(s, i) < |s| ==> IsLineBreak(s[BreakFrom(s, i)])
    decreases |s| - i
  {
    if i < |s| && !IsLineBreak(s[i]) {
      BreakFromBreaks(s, i + 1);
    }
  }

  lemma BreakAtLine(s: string)
    ensures IsLine(s[..BreakAt(s)])
    ensures BreakAt(s) < |s| ==> IsLineBreak(s[BreakAt(s)])
  {
    BreakFromBreaks(s, 0);
  }

  /** `\r\n` counts as one separator. */
  function BreakWidth(s: string, n: nat): (w: nat)
    requires n < |s|
    ensures 1 <= w <= 2 && n + w <= |s|
  {
    if s[n] == '\r' && n + 1 < |s| && s[n + 1] == '\n' then 2 else 1
  }

  /** `str.splitlines()`. */
  function SplitLines(s: string): seq<string>
    decreases |s|
  {
    if s == "" then []
    else
      var n := BreakAt(s);
      if n == |s| then [s] else [s[..n]] + SplitLines(s[n + BreakWidth(s, n)..])
  }

  lemma {:induction false} SplitLinesAreLines(s: string)
    ensures AreLines(SplitLines(s))
    decreases |s|
  {
    BreakAtLine(s);
    var n := BreakAt(s);
    if s != "" {
      if n == |s| {
        assert s[..n] == s;
      } else {
        SplitLinesAreLines(s[n + BreakWidth(s, n)..]);
      }
    }
  }

  lemma BreakAtPrefix(l: string, t: string)
    requires IsLine(l)
    requires t == "" || IsLineBreak(t[0])
    ensures BreakAt(l + t) == |l|
  {
    BreakFromIsFirst(l + t, 0, |l|);
  }

  lemma SplitLinesCons(l: string, t: string)
    requires IsLine(l)
    ensures SplitLines(l + "\n" + t) == [l] + SplitLines(t)
  {
    var s := l + "\n" + t;
    assert s == l + ("\n" + t);
    BreakAtPrefix(l, "\n" + t);
    assert s[|l| + 1..] == t;
    assert s[..|l|] == l;
  }

  lemma SplitLinesSingle(l: string)
    requires IsLine(l)
    ensures SplitLines(l) == if l == "" then [] else [l]
  {
    BreakAtPrefix(l, "");
    assert l + "" == l;
  }

  /** Any line break ends a line; a carriage return and the line feed behind it are one. */
  lemma SplitLinesAt(l: string, c: char, t: string)
    requires IsLine(l) && IsLineBreak(c)
    ensures SplitLines(l + [c] + t) ==
            [l] + SplitLines(if c == '\r' && t != "" && t[0] == '\n' then t[1..] else t)
    ensures SplitLines(l) == if l == "" then [] else [l]
  {
    var s := l + [c] + t;
    assert s == l + ([c] + t);
    BreakAtPrefix(l, [c] + t);
    SplitLinesSingle(l);
    assert s[..|l|] == l && s[|l|] == c && s[|l| + 1..] == t;
    assert t != "" ==> s[|l| + 1] == t[0] && s[|l| + 2..] == t[1..];
  }

  /** Joining lines and splitting again gives the lines back, except that one empty line at
      the very end is lost. */
  lemma {:induction false} SplitJoin(lines: seq<string>)
    requires AreLines(lines)
    ensures SplitLines(JoinLines(lines)) ==
            if lines != [] && lines[|lines| - 1] == "" then lines[..|lines| - 1] else lines
  {
    hide SplitLines;
    if |lines| == 0 {
      SplitLinesSingle("");
    } else if |lines| == 1 {
      SplitLinesSingle(lines[0]);
    } else {
      var rest := lines[1..];
      assert AreLines(rest);
      SplitJoin(rest);
      SplitLinesCons(lines[0], JoinLines(rest));
      assert rest[|rest| - 1] == lines[|lines| - 1];
      assert [lines[0]] + rest[..|rest| - 1] == lines[..|lines| - 1];
    }
  }

  // ---------- the content of a text, line by line ----------

  /** The stripped, non-blank lines. */
  function Trimmed(lines: seq<string>): (r: seq<string>) {
    if lines == [] then []
    else (if Strip(lines[0]) == "" then [] else [Strip(lines[0])]) + Trimmed(lines[1..])
  }

  lemma {:induction false} TrimmedAppend(a: seq<string>, b: seq<string>)
    ensures Trimmed(a + b) == Trimmed(a) + Trimmed(b)
  {
    hide Strip;
    if a == [] {
      assert a + b == b;
    } else {
      assert (a + b)[1..] == a[1..] + b;
      TrimmedAppend(a[1..], b);
    }
  }

  function TrimmedText(s: string): seq<string> {
    Trimmed(SplitLines(s))
  }

  lemma TrimmedJoin(lines: seq<string>)
    requires AreLines(lines)
    ensures TrimmedText(JoinLines(lines)) == Trimmed(lines)
  {
    SplitJoin(lines);
    if lines != [] && lines[|lines| - 1] == "" {
      var init := lines[..|lines| - 1];
      assert lines == init + [""];
      TrimmedAppend(init, [""]);
    }
  }

  lemma TrimmedCons(l: string, rest: seq<string>)
    ensures Trimmed([l] + rest) == (if Strip(l) == "" then [] else [Strip(l)]) + Trimmed(rest)
  {
    assert ([l] + rest)[1..] == rest;
  }

  /** Cutting a text at its first separator. */
  lemma SplitLinesCut(s: string)
    requires BreakAt(s) < |s|
    ensures SplitLines(s) == [s[..BreakAt(s)]] + SplitLines(s[BreakAt(s) + BreakWidth(s, BreakAt(s))..])
  {
    hide BreakAt;
  }

  lemma {:induction false} TrimmedLStrip(s: string)
    ensures TrimmedText(LStrip(s)) == TrimmedText(s)
    decreases |s|
  {
    hide TrimmedText, SkipSpaces;
    if s == "" || !IsSpace(s[0]) {
      SkipSpacesFirst(s, 0, 0);
    } else {
      var t := s[1..];
      TrimmedLStrip(t);
      DropLeadingSpace(s);
      assert s == [s[0]] + t;
      LStripBlankPrefix([s[0]], t);
    }
  }

  lemma StripLeading(l: string)
    requires l != "" && IsSpace(l[0])
    ensures Strip(l) == Strip(l[1..])
  {
    assert l == [l[0]] + l[1..];
    LStripBlankPrefix([l[0]], l[1..]);
  }

  lemma DropLeadingSpace(s: string)
    requires s != "" && IsSpace(s[0])
    ensures TrimmedText(s[1..]) == TrimmedText(s)
  {
    hide TrimmedText;
    if IsLineBreak(s[0]) {
      DropLeadingBreak(s);
    } else if BreakAt(s) == |s| {
      DropLeadingSpaceLine(s);
    } else {
      DropLeadingSpaceCut(s);
    }
  }

  lemma DropLeadingSpaceCut(s: string)
    requires s != "" && IsSpace(s[0]) && 0 < BreakAt(s) < |s|
    ensures TrimmedText(s[1..]) == TrimmedText(s)
  {
    hide SplitLines, Strip, IsSpace, Trimmed, BreakFrom;
    var t, n := s[1..], BreakAt(s);
    BreakFromBreaks(s, 0);
    BreakFromIsFirst(t, 0, n - 1);
    SplitLinesCut(s);
    SplitLinesCut(t);
    var w := BreakWidth(s, n);
    assert s[n + w..] == t[n - 1 + w..];
    StripLeading(s[..n]);
    assert s[..n][1..] == t[..n - 1];
    TrimmedCons(s[..n], SplitLines(s[n + w..]));
    TrimmedCons(t[..n - 1], SplitLines(s[n + w..]));
  }

  lemma DropLeadingSpaceLine(s: string)
    requires s != "" && IsSpace(s[0]) && BreakAt(s) == |s|
    ensures TrimmedText(s[1..]) == TrimmedText(s)
  {
    hide SplitLines, Strip, IsSpace;
    BreakFromBreaks(s, 0);
    SplitLinesSingle(s);
    SplitLinesSingle(s[1..]);
    StripLeading(s);
    StripBlank("");
    TrimmedCons(s, []);
    TrimmedCons(s[1..], []);
    assert [s] + [] == [s] && [s[1..]] + [] == [s[1..]];
  }

  lemma DropLeadingBreak(s: string)
    requires s != "" && IsLineBreak(s[0])
    ensures TrimmedText(s[1..]) == TrimmedText(s)
  {
    hide SplitLines, Strip, IsSpace;
    StripBlank("");
    var t := s[1..];
    SplitLinesCut(s);
    assert s[..0] == "";
    var w := BreakWidth(s, 0);
    TrimmedCons("", SplitLines(s[w..]));
    if w == 2 {
      SplitLinesCut(t);
      assert t[..0] == "" && t[1..] == s[2..];
      TrimmedCons("", SplitLines(s[2..]));
    }
  }

  lemma {:induction false} TrimmedRStrip(s: string)
    ensures TrimmedText(RStrip(s)) == TrimmedText(s)
    decreases |s|
  {
    hide TrimmedText, BackSpaces;
    if s != "" && IsSpace(s[|s| - 1]) {
      var t, c := s[..|s| - 1], s[|s| - 1];
      TrimmedRStrip(t);
      DropTrailingSpace(t, c);
      assert s == t + [c];
      RStripAppend(t, [c]);
    } else {
      BackSpacesLast(s, |s|, |s|);
      assert s[..|s|] == s;
    }
  }

  lemma StripTrailing(l: string, c: char)
    requires IsSpace(c)
    ensures Strip(l + [c]) == Strip(l)
  {
    if IsBlank(l) {
      StripBlank(l);
      StripBlank(l + [c]);
    } else {
      LStripAppend(l, [c]);
      RStripAppend(LStrip(l), [c]);
    }
  }

  lemma {:induction false} DropTrailingSpace(t: string, c: char)
    requires IsSpace(c)
    ensures TrimmedText(t + [c]) == TrimmedText(t)
    decreases |t|
  {
    hide SplitLines, IsSpace, Strip, Trimmed;
    var s := t + [c];
    var n := BreakAt(t);
    if n == |t| {
      DropTrailingSpaceLine(t, c);
    } else {
      BreakFromBreaks(t, 0);
      BreakFromIsFirst(s, 0, n);
      SplitLinesCut(t);
      SplitLinesCut(s);
      var w := BreakWidth(t, n);
      assert s[..n] == t[..n];
      if BreakWidth(s, n) == w {
        assert s[n + w..] == t[n + w..] + [c];
        DropTrailingSpace(t[n + w..], c);
      } else {
        assert s[n + 2..] == "" && t[n + 1..] == "";
      }
      TrimmedCons(t[..n], SplitLines(t[n + w..]));
      TrimmedCons(t[..n], SplitLines(s[n + BreakWidth(s, n)..]));
    }
  }

  lemma DropTrailingSpaceLine(t: string, c: char)
    requires IsSpace(c) && BreakAt(t) == |t|
    ensures TrimmedText(t + [c]) == TrimmedText(t)
  {
    hide IsSpace, Strip, SplitLines;
    BreakFromBreaks(t, 0);
    SplitLinesSingle(t);
    StripTrailing(t, c);
    StripBlank("");
    if IsLineBreak(c) {
      SplitLinesBreak(t, c);
    } else {
      SplitLinesSingle(t + [c]);
    }
    TrimmedCons(t, []);
    TrimmedCons(t + [c], []);
    assert [t] + [] == [t] && [t + [c]] + [] == [t + [c]];
  }

  lemma SplitLinesBreak(t: string, c: char)
    requires IsLine(t) && IsLineBreak(c)
    ensures SplitLines(t + [c]) == [t]
  {
    BreakAtPrefix(t, [c]);
    SplitLinesCut(t + [c]);
    assert (t + [c])[..|t|] == t && (t + [c])[|t| + 1..] == "";
  }

  /** Stripping a text never changes its stripped, non-blank lines. */
  lemma TrimmedStrip(s: string)
    ensures TrimmedText(Strip(s)) == TrimmedText(s)
  {
    TrimmedLStrip(s);
    TrimmedRStrip(LStrip(s));
  }

  lemma {:induction false} TrimmedBlank(lines: seq<string>)
    requires forall i | 0 <= i < |lines| :: Strip(lines[i]) == ""
    ensures Trimmed(lines) == []
  {
    if lines != [] {
      TrimmedBlank(lines[1..]);
    }
  }
}
