/** Byte ranges of a file (sections 14.1.2 and 14.4 of RFC 9110). */
module ByteRange {
  import opened Wrappers
  import opened Sequences
  import opened Text
  import Decimal

  const PREFIX := "bytes="
  const CHUNK_SIZE: nat := 1048576

  datatype Range = Range(start: nat, end: nat)

  function DashAt(s: string, i: nat): (n: nat)
    requires i <= |s|
    ensures i <= n <= |s|
    decreases |s| - i
  {
    if i == |s| || s[i] == '-' then i else DashAt(s, i + 1)
  }

  function HasComma(s: string): bool {
    exists i | 0 <= i < |s| :: s[i] == ','
  }

  /** The last part of `_parse_range`: None is the 416 answer. */
  function Checked(start: int, end: int, size: nat): Option<Range> {
    if start < 0 || end < start || start >= size then None
    else Some(Range(start, if end < size - 1 then end else size - 1))
  }

  /** `_parse_range`. */
  function Parse(header: string, size: nat): Option<Range> {
    if !(PREFIX <= header) || HasComma(header) then None
    else
      var value := Strip(header[|PREFIX|..]);
      var n := DashAt(value, 0);
      if n == |value| then None
      else
        var startText, endText := value[..n], value[n + 1..];
        if startText == "" then
          var suffixLength := Decimal.Parse(endText);
          if suffixLength.None? || suffixLength.value <= 0 then None
          else Checked(if size - suffixLength.value < 0 then 0 else size - suffixLength.value, size - 1, size)
        else
          var start := Decimal.Parse(startText);
          var end := if endText != "" then Decimal.Parse(endText) else Some(size - 1);
          if start.None? || end.None? then None else Checked(start.value, end.value, size)
  }

  /** An accepted range is not empty and lies inside the file. */
  lemma AcceptedInside(header: string, size: nat)
    ensures var r := Parse(header, size); r.Some? ==> r.value.start <= r.value.end < size
  {
    hide Strip, Decimal.Parse, HasComma;
  }

  // ---------- what a range asks for ----------

  /** The three forms of a range. */
  datatype Spec = FromTo(first: nat, last: nat) | From(first: nat) | Suffix(length: nat)

  function Printed(spec: Spec): string {
    match spec
    case FromTo(first, last) => PREFIX + (Decimal.Print(first) + ("-" + Decimal.Print(last)))
    case From(first) => PREFIX + (Decimal.Print(first) + ("-" + ""))
    case Suffix(length) => PREFIX + ("" + ("-" + Decimal.Print(length)))
  }

  /** The positions of a file of the given size that the range selects. */
  predicate Selects(spec: Spec, size: nat, i: int) {
    0 <= i < size &&
    match spec
    case FromTo(first, last) => first <= i <= last
    case From(first) => first <= i
    case Suffix(length) => size - length <= i
  }

  lemma {:induction false} DashFirst(s: string, i: nat, n: nat)
    requires i <= n <= |s| && (n < |s| ==> s[n] == '-')
    requires forall k | i <= k < n :: s[k] != '-'
    ensures DashAt(s, i) == n
    decreases n - i
  {
    if i < n {
      DashFirst(s, i + 1, n);
    }
  }

  predicate Digits(s: string) {
    forall i | 0 <= i < |s| :: Decimal.IsDigit(s[i])
  }

  /** No character of `a-b` is white space or a comma. */
  lemma PlainValue(a: string, b: string, i: nat)
    requires Digits(a) && Digits(b) && i < |a + ("-" + b)|
    ensures (a + ("-" + b))[i] != ',' && !IsSpace((a + ("-" + b))[i])
  {
    if i < |a| {
      Decimal.DigitPlain(a[i]);
    } else if i > |a| {
      Decimal.DigitPlain(b[i - |a| - 1]);
    }
  }

  lemma NoComma(a: string, b: string)
    requires Digits(a) && Digits(b)
    ensures !HasComma(PREFIX + (a + ("-" + b)))
  {
    var header := PREFIX + (a + ("-" + b));
    forall i | 0 <= i < |header|
      ensures header[i] != ','
    {
      if i >= |PREFIX| {
        PlainValue(a, b, i - |PREFIX|);
      } else {
        assert header[i] == PREFIX[i];
      }
    }
  }

  lemma Unstripped(a: string, b: string)
    requires Digits(a) && Digits(b)
    ensures Strip(a + ("-" + b)) == a + ("-" + b)
  {
    PlainValue(a, b, 0);
    PlainValue(a, b, |a| + |b|);
    StripStripped(a + ("-" + b));
  }

  lemma Dashed(a: string, b: string)
    requires Digits(a)
    ensures DashAt(a + ("-" + b), 0) == |a|
    ensures (a + ("-" + b))[..|a|] == a && (a + ("-" + b))[|a| + 1..] == b
  {
    var value := a + ("-" + b);
    forall k | 0 <= k < |a|
      ensures value[k] != '-'
    {
      Decimal.DigitPlain(a[k]);
    }
    DashFirst(value, 0, |a|);
  }

  /** How the code takes `a-b` apart. */
  lemma Taken(a: string, b: string)
    requires Digits(a) && Digits(b)
    ensures var header := PREFIX + (a + ("-" + b));
            && PREFIX <= header && !HasComma(header)
            && Strip(header[|PREFIX|..]) == a + ("-" + b)
            && DashAt(a + ("-" + b), 0) == |a|
            && (a + ("-" + b))[..|a|] == a && (a + ("-" + b))[|a| + 1..] == b
  {
    NoComma(a, b);
    Unstripped(a, b);
    Dashed(a, b);
    var value := a + ("-" + b);
    hide Strip, DashAt, HasComma, Digits;
    assert (PREFIX + value)[|PREFIX|..] == value;
  }

  /** What is left of a range once its text is taken apart. */
  function Resolved(spec: Spec, size: nat): Option<Range> {
    match spec
    case FromTo(first, last) => Checked(first, last, size)
    case From(first) => Checked(first, size - 1, size)
    case Suffix(length) =>
      if length == 0 then None else Checked(if size - length < 0 then 0 else size - length, size - 1, size)
  }

  lemma ParsePrinted(spec: Spec, size: nat)
    ensures Parse(Printed(spec), size) == Resolved(spec, size)
  {
    hide Strip, DashAt, HasComma, Decimal.Parse, Decimal.Print, Checked;
    match spec
    case FromTo(first, last) =>
      Taken(Decimal.Print(first), Decimal.Print(last));
      Decimal.PrintParse(first);
      Decimal.PrintParse(last);
    case From(first) =>
      Taken(Decimal.Print(first), "");
      Decimal.PrintParse(first);
    case Suffix(length) =>
      Taken("", Decimal.Print(length));
      Decimal.PrintParse(length);
  }

  /** A well-formed range is accepted exactly when it selects something, and is then exactly
      what it selects. */
  lemma ParseIsSelection(spec: Spec, size: nat)
    ensures var r := Parse(Printed(spec), size);
            && (r.Some? <==> exists i :: Selects(spec, size, i))
            && (r.Some? ==> forall i :: Selects(spec, size, i) <==> r.value.start <= i <= r.value.end)
  {
    hide Parse, Printed;
    ParsePrinted(spec, size);
    match spec
    case FromTo(first, last) => assert Selects(spec, size, first) <==> first <= last && first < size;
    case From(first) => assert Selects(spec, size, first) <==> first < size;
    case Suffix(length) => assert Selects(spec, size, size - 1) <==> length > 0 && size > 0;
  }

  /** The three forms, written out. */
  lemma ParseForms(first: nat, last: nat, size: nat)
    ensures Parse("bytes=" + (Decimal.Print(first) + ("-" + Decimal.Print(last))), size) ==
            if last < first || first >= size then None else Some(Range(first, if last < size then last else size - 1))
    ensures Parse("bytes=" + (Decimal.Print(first) + ("-" + "")), size) ==
            if first >= size then None else Some(Range(first, size - 1))
    ensures Parse("bytes=" + ("" + ("-" + Decimal.Print(last))), size) ==
            if last == 0 || size == 0 then None else Some(Range(if last < size then size - last else 0, size - 1))
  {
    hide Parse, Decimal.Print;
    ParsePrinted(FromTo(first, last), size);
    ParsePrinted(From(first), size);
    ParsePrinted(Suffix(last), size);
  }

  /** Other units, lists of ranges and texts without a dash are refused. */
  lemma ParseRefuses(header: string, size: nat)
    requires !("bytes=" <= header) || ',' in header || '-' !in header
    ensures Parse(header, size) == None
  {
    hide Decimal.Parse;
    if "bytes=" <= header && !HasComma(header) {
      var rest := header[|PREFIX|..];
      LStripCut(rest);
      RStripCut(LStrip(rest));
      var value := Strip(rest);
      NoDash(value, 0);
    }
  }

  lemma {:induction false} NoDash(s: string, i: nat)
    requires i <= |s| && forall k | 0 <= k < |s| :: s[k] != '-'
    ensures DashAt(s, i) == |s|
    decreases |s| - i
  {
    if i < |s| {
      NoDash(s, i + 1);
    }
  }

  // ---------- streaming ----------

  /** `file.read(n)` at a position. */
  function ReadAt(file: seq<int>, position: nat, n: nat): seq<int> {
    if position >= |file| then [] else if position + n <= |file| then file[position..position + n] else file[position..]
  }

  /** Reading on where a full read stopped. */
  lemma ReadOn(file: seq<int>, position: nat, n: nat, more: nat)
    requires |ReadAt(file, position, n)| == n
    ensures ReadAt(file, position, n) + ReadAt(file, position + n, more) == ReadAt(file, position, n + more)
    ensures |ReadAt(file, position, n + more)| == n + |ReadAt(file, position + n, more)|
  {}

  lemma ReadShort(file: seq<int>, position: nat, n: nat, more: nat)
    requires n <= more && n > 0 && ReadAt(file, position, n) == []
    ensures ReadAt(file, position, more) == []
  {}

  /** What a read returns at all is what asking for that much returns. */
  lemma ReadExact(file: seq<int>, position: nat, n: nat)
    ensures |ReadAt(file, position, n)| <= n
    ensures ReadAt(file, position, |ReadAt(file, position, n)|) == ReadAt(file, position, n)
  {}

  /** `_iter_file_range`: non-empty chunks of at most one mebibyte that together are the slice,
      cut short only if the file has become shorter. */
  method IterFileRange(file: seq<int>, start: nat, end: nat) returns (chunks: seq<seq<int>>)
    requires start <= end
    ensures Flatten(chunks) == ReadAt(file, start, end - start + 1)
    ensures forall i | 0 <= i < |chunks| :: 0 < |chunks[i]| <= 1048576
  {
    hide ReadAt;
    chunks := [];
    ghost var read := 0;
    var remaining := end - start + 1;
    ReadNothing(file, start);
    while remaining > 0
      invariant remaining >= 0 && read + remaining == end - start + 1 && read >= 0
      invariant Flatten(chunks) == ReadAt(file, start, read) && |ReadAt(file, start, read)| == read
      invariant forall i | 0 <= i < |chunks| :: 0 < |chunks[i]| <= CHUNK_SIZE
      decreases remaining
    {
      var n := if CHUNK_SIZE < remaining then CHUNK_SIZE else remaining;
      var position := end + 1 - remaining;
      var chunk := ReadAt(file, position, n);
      if chunk == [] {
        ReadShort(file, position, n, remaining);
        ReadOn(file, start, read, remaining);
        return;
      }
      ReadExact(file, position, n);
      ReadOn(file, start, read, |chunk|);
      assert (chunks + [chunk])[..|chunks|] == chunks;
      chunks := chunks + [chunk];
      remaining := remaining - |chunk|;
      read := read + |chunk|;
    }
  }

  lemma ReadNothing(file: seq<int>, position: nat)
    ensures ReadAt(file, position, 0) == []
  {}

  /** The chunks of an accepted range are the bytes it names. */
  lemma AcceptedSlice(header: string, file: seq<int>)
    ensures var r := Parse(header, |file|);
            r.Some? ==>
              && r.value.start <= r.value.end < |file|
              && ReadAt(file, r.value.start, r.value.end - r.value.start + 1) == file[r.value.start..r.value.end + 1]
  {
    AcceptedInside(header, |file|);
    hide Parse;
  }
}
