/** What the text helpers promise: joined parts stand at their offsets, a number reads back from its
    digits, and lines read back from any text that ends them. */
module TextLayout {
  import opened Wrappers
  import opened Lists
  import opened Text

  // ----- joined parts -----

  /** Where part i starts. */
  function Offset(parts: seq<string>, gap: nat, i: nat): nat
    requires i <= |parts|
  {
    if i == 0 then 0 else Offset(parts, gap, i - 1) + |parts[i - 1]| + gap
  }

  /** `text` holds `part` from `at` on. */
  predicate HoldsAt(text: string, at: nat, part: string)
  {
    at + |part| <= |text| && text[at..at + |part|] == part
  }

  /** Part i stands at its offset, and the separator after it unless it is the last. */
  predicate PartAt(text: string, parts: seq<string>, sep: string, i: nat)
    requires i < |parts|
  {
    && HoldsAt(text, Offset(parts, |sep|, i), parts[i])
    && (i + 1 < |parts| ==> HoldsAt(text, Offset(parts, |sep|, i) + |parts[i]|, sep))
  }

  /** The text is the parts in order with the separator between them, and nothing else. */
  ghost predicate LaidOut(text: string, parts: seq<string>, sep: string)
  {
    && (parts == [] ==> text == "")
    && (parts != [] ==> |text| + |sep| == Offset(parts, |sep|, |parts|))
    && forall i :: 0 <= i < |parts| ==> PartAt(text, parts, sep, i)
  }

  lemma {:induction false} OffsetPrefix(parts: seq<string>, more: seq<string>, gap: nat, i: nat)
    requires i <= |parts|
    ensures Offset(parts + more, gap, i) == Offset(parts, gap, i)
  {
    if i > 0 { OffsetPrefix(parts, more, gap, i - 1); }
  }

  lemma HoldsLonger(text: string, more: string, at: nat, part: string)
    requires HoldsAt(text, at, part)
    ensures HoldsAt(text + more, at, part)
  {
    assert (text + more)[at..at + |part|] == text[at..at + |part|];
  }

  lemma HoldsNext(text: string, sep: string, part: string)
    ensures HoldsAt(text + sep + part, |text|, sep)
    ensures HoldsAt(text + sep + part, |text| + |sep|, part)
  {
  }

  lemma LaidOutMore(text: string, parts: seq<string>, sep: string, part: string)
    requires parts != [] && LaidOut(text, parts, sep)
    ensures LaidOut(text + sep + part, parts + [part], sep)
  {
    var all := parts + [part];
    var whole := text + sep + part;
    var k := |parts|;
    OffsetPrefix(parts, [part], |sep|, k);
    HoldsNext(text, sep, part);
    Extent(parts, |sep|);
    forall i | 0 <= i < k ensures PartAt(whole, all, sep, i) {
      assert PartAt(text, parts, sep, i);
      OffsetPrefix(parts, [part], |sep|, i);
      PartStays(text, parts[i], sep, part, Offset(parts, |sep|, i), i + 1 == k);
      assert all[i] == parts[i];
    }
    assert PartAt(whole, all, sep, k);
  }

  lemma Extent(parts: seq<string>, gap: nat)
    requires parts != []
    ensures Offset(parts, gap, |parts|) == Offset(parts, gap, |parts| - 1) + |parts[|parts| - 1]| + gap
  {
  }

  lemma PartStays(text: string, part: string, sep: string, more: string, at: nat, last: bool)
    requires HoldsAt(text, at, part)
    requires if last then at + |part| == |text| else HoldsAt(text, at + |part|, sep)
    ensures HoldsAt(text + sep + more, at, part) && HoldsAt(text + sep + more, at + |part|, sep)
  {
    Regroup(text, sep, more);
    HoldsLonger(text, sep + more, at, part);
    if last { HoldsNext(text, sep, more); } else { HoldsLonger(text, sep + more, at + |part|, sep); }
  }

  lemma {:induction false} JoinLaysOut(parts: seq<string>, sep: string)
    ensures LaidOut(Join(parts, sep), parts, sep)
  {
    if |parts| == 1 {
      assert Offset(parts, |sep|, 1) == |parts[0]| + |sep|;
      assert PartAt(parts[0], parts, sep, 0);
    } else if parts != [] {
      var k := |parts| - 1;
      JoinLaysOut(parts[..k], sep);
      LaidOutMore(Join(parts[..k], sep), parts[..k], sep, parts[k]);
      assert parts == parts[..k] + [parts[k]];
    }
  }

  // ----- decimal numbers -----

  function Read(digits: string): int
  {
    if digits == "" then 0 else 10 * Read(digits[..|digits| - 1]) + (digits[|digits| - 1] as int - '0' as int)
  }

  predicate IsDigit(c: char)
  {
    '0' <= c <= '9'
  }

  /** Digits only, no leading zero, and they read back as the number. */
  lemma {:induction false} DecReadsBack(n: nat)
    ensures Dec(n) != "" && forall i :: 0 <= i < |Dec(n)| ==> IsDigit(Dec(n)[i])
    ensures Dec(n)[0] == '0' <==> n == 0
    ensures Read(Dec(n)) == n
  {
    if n < 10 {
      assert Dec(n)[..0] == "";
    } else {
      DecReadsBack(n / 10);
      assert Dec(n)[..|Dec(n)| - 1] == Dec(n / 10);
    }
  }

  // ----- lines -----

  predicate OneLine(s: string)
  {
    forall i :: 0 <= i < |s| ==> s[i] != '\n'
  }

  /** A line as a text has it, with the end it has there. */
  datatype Ended = Ended(line: string, carriageReturn: bool)

  function Print(e: Ended): string
  {
    e.line + (if e.carriageReturn then "\r\n" else "\n")
  }

  function PrintLines(es: seq<Ended>): string
  {
    if es == [] then "" else Print(es[0]) + PrintLines(es[1..])
  }

  /** No line break inside, and none that its end could be taken for. */
  predicate Unbroken(e: Ended)
  {
    OneLine(e.line) && (!e.carriageReturn ==> e.line == "" || e.line[|e.line| - 1] != '\r')
  }

  lemma {:induction false} FirstNewline(h: string, t: string)
    requires OneLine(h)
    ensures FindNewline(h + ("\n" + t)) == Some(|h|)
  {
    if h == "" {
      assert h + ("\n" + t) == "\n" + t;
    } else {
      assert (h + ("\n" + t))[1..] == h[1..] + ("\n" + t);
      FirstNewline(h[1..], t);
    }
  }

  lemma FirstLine(h: string, t: string)
    requires OneLine(h)
    ensures TextLines(h + ("\n" + t)) == [DropCarriageReturn(h)] + TextLines(t)
  {
    var s := h + ("\n" + t);
    FirstNewline(h, t);
    assert s[..|h|] == h && s[|h| + 1..] == t;
  }

  /** Lines that end in "\n" or "\r\n" are read back as they are, and so is a last line without an end. */
  lemma {:induction false} LinesReadBack(es: seq<Ended>, last: string)
    requires forall i :: 0 <= i < |es| ==> Unbroken(es[i])
    requires OneLine(last)
    ensures TextLines(PrintLines(es) + last) == Bare(es) + if last == "" then [] else [last]
  {
    if es == [] {
      assert PrintLines(es) + last == last;
      NoNewline(last);
    } else {
      LinesReadBack(es[1..], last);
      FirstReadsBack(es[0], PrintLines(es[1..]) + last);
      PrintFirst(es, last);
      LinesFirst(es);
    }
  }

  function Bare(es: seq<Ended>): seq<string>
  {
    seq(|es|, i requires 0 <= i < |es| => es[i].line)
  }

  lemma LinesFirst(es: seq<Ended>)
    requires es != []
    ensures Bare(es) == [es[0].line] + Bare(es[1..])
  {
  }

  lemma PrintFirst(es: seq<Ended>, last: string)
    requires es != []
    ensures PrintLines(es) + last == Print(es[0]) + (PrintLines(es[1..]) + last)
  {
  }

  lemma FirstReadsBack(e: Ended, t: string)
    requires Unbroken(e)
    ensures TextLines(Print(e) + t) == [e.line] + TextLines(t)
  {
    var h := if e.carriageReturn then e.line + "\r" else e.line;
    assert Print(e) + t == h + ("\n" + t);
    FirstLine(h, t);
    assert DropCarriageReturn(h) == e.line;
  }

  lemma {:induction false} NoNewline(s: string)
    requires OneLine(s)
    ensures FindNewline(s) == None
  {
    if s != "" { NoNewline(s[1..]); }
  }
}
