/** The string operations the parsers use: trimming, splitting, lines. */
module Text {
  import opened Wrappers

  /** Unicode White_Space. */
  predicate IsSpace(c: char) {
    var n := c as int;
    || 0x09 <= n <= 0x0D || n == 0x20 || n == 0x85 || n == 0xA0 || n == 0x1680
    || 0x2000 <= n <= 0x200A || n == 0x2028 || n == 0x2029 || n == 0x202F || n == 0x205F || n == 0x3000
  }

  function TrimStart(s: string): (r: string)
    ensures r == [] || !IsSpace(r[0])
    ensures |r| <= |s| && r == s[|s| - |r|..]
    ensures forall i :: 0 <= i < |s| - |r| ==> IsSpace(s[i])
  {
    if s != [] && IsSpace(s[0]) then TrimStart(s[1..]) else s
  }

  function TrimEnd(s: string): (r: string)
    ensures r == [] || !IsSpace(r[|r| - 1])
    ensures |r| <= |s| && r == s[..|r|]
    ensures forall i :: |r| <= i < |s| ==> IsSpace(s[i])
  {
    if s != [] && IsSpace(s[|s| - 1]) then TrimEnd(s[..|s| - 1]) else s
  }

  function Trim(s: string): (r: string)
    ensures Trimmed(r)
  {
    TrimEnd(TrimStart(s))
  }

  predicate Trimmed(s: string) {
    s == [] || (!IsSpace(s[0]) && !IsSpace(s[|s| - 1]))
  }

  lemma TrimFixed(s: string)
    requires Trimmed(s)
    ensures Trim(s) == s
  {
  }

  /** `split_once(c)`. */
  function SplitOnce(s: string, c: char): (r: Option<(string, string)>)
    ensures r.None? <==> c !in s
    ensures r.Some? ==> s == r.value.0 + [c] + r.value.1 && c !in r.value.0
  {
    if s == [] then None
    else if s[0] == c then Some(([], s[1..]))
    else
      match SplitOnce(s[1..], c)
      case None => None
      case Some((a, b)) => Some(([s[0]] + a, b))
  }

  lemma {:induction false} SplitOnceOf(a: string, c: char, b: string)
    requires c !in a
    ensures SplitOnce(a + [c] + b, c) == Some((a, b))
  {
    var s := a + [c] + b;
    if a != [] {
      SplitOnceOf(a[1..], c, b);
      assert s[1..] == a[1..] + [c] + b;
      assert [s[0]] + a[1..] == a;
    } else {
      assert s[1..] == b;
    }
  }

  /** `split(c)` on one character. */
  function Split(s: string, c: char): (r: seq<string>)
    ensures |r| >= 1
  {
    if s == [] then [[]]
    else
      var rest := Split(s[1..], c);
      if s[0] == c then [[]] + rest else [[s[0]] + rest[0]] + rest[1..]
  }

  function Join(parts: seq<string>, c: char): string
    requires parts != []
  {
    if |parts| == 1 then parts[0] else parts[0] + [c] + Join(parts[1..], c)
  }

  lemma {:induction false} SplitNone(s: string, c: char)
    requires c !in s
    ensures Split(s, c) == [s]
  {
    if s != [] {
      SplitNone(s[1..], c);
      assert [s[0]] + s[1..] == s;
    }
  }

  lemma {:induction false} SplitHead(a: string, c: char, b: string)
    requires c !in a
    ensures Split(a + [c] + b, c) == [a] + Split(b, c)
  {
    var s := a + [c] + b;
    if a == [] {
      assert s[1..] == b;
    } else {
      SplitHead(a[1..], c, b);
      assert s[1..] == a[1..] + [c] + b;
      assert [s[0]] + a[1..] == a;
    }
  }

  lemma {:induction false} SplitJoin(parts: seq<string>, c: char)
    requires parts != [] && forall i :: 0 <= i < |parts| ==> c !in parts[i]
    ensures Split(Join(parts, c), c) == parts
  {
    if |parts| == 1 {
      SplitNone(parts[0], c);
    } else {
      SplitJoin(parts[1..], c);
      SplitHead(parts[0], c, Join(parts[1..], c));
    }
  }

  function Count(s: string, c: char): nat {
    if s == [] then 0 else (if s[0] == c then 1 else 0) + Count(s[1..], c)
  }

  lemma {:induction false} SplitCount(s: string, c: char)
    ensures |Split(s, c)| == Count(s, c) + 1
  {
    if s != [] {
      SplitCount(s[1..], c);
    }
  }

  lemma {:induction false} CountAppend(a: string, b: string, c: char)
    ensures Count(a + b, c) == Count(a, c) + Count(b, c)
  {
    if a == [] {
      assert a + b == b;
    } else {
      assert (a + b)[1..] == a[1..] + b;
      CountAppend(a[1..], b, c);
    }
  }

  lemma {:induction false} CountNone(s: string, c: char)
    ensures Count(s, c) == 0 <==> c !in s
  {
    if s != [] {
      CountNone(s[1..], c);
      assert c in s <==> s[0] == c || c in s[1..];
    }
  }

  /** `split(separator)` on a longer separator, left to right. */
  function SplitText(s: string, separator: string): (r: seq<string>)
    requires separator != []
    ensures |r| >= 1
    decreases |s|
  {
    if |s| < |separator| then [s]
    else if s[..|separator|] == separator then [[]] + SplitText(s[|separator|..], separator)
    else
      var rest := SplitText(s[1..], separator);
      [[s[0]] + rest[0]] + rest[1..]
  }

  /** The separator does not start inside `a` when `a` is followed by it. */
  predicate FirstSeparatorAfter(a: string, separator: string) {
    a == [] || ((a + separator)[..|separator|] != separator && FirstSeparatorAfter(a[1..], separator))
  }

  lemma {:induction false} SplitTextHead(a: string, separator: string, b: string)
    requires separator != [] && FirstSeparatorAfter(a, separator)
    ensures SplitText(a + separator + b, separator) == [a] + SplitText(b, separator)
    decreases |a|
  {
    var s := a + separator + b;
    if a == [] {
      assert s[..|separator|] == separator && s[|separator|..] == b;
    } else {
      assert s[..|separator|] == (a + separator)[..|separator|];
      assert s[1..] == a[1..] + separator + b;
      SplitTextHead(a[1..], separator, b);
      assert [s[0]] + a[1..] == a;
    }
  }

  function ChopReturn(s: string): string {
    if s != [] && s[|s| - 1] == '\r' then s[..|s| - 1] else s
  }

  function ChopAll(lines: seq<string>): (r: seq<string>)
    ensures |r| == |lines| && forall i :: 0 <= i < |r| ==> r[i] == ChopReturn(lines[i])
  {
    if lines == [] then [] else [ChopReturn(lines[0])] + ChopAll(lines[1..])
  }

  /** `lines()`: newline ends a line, a return before it is dropped, and text after the last newline
      is a line only if there is any. */
  function Lines(s: string): seq<string> {
    var parts := Split(s, '\n');
    var ended := ChopAll(parts[..|parts| - 1]);
    if parts[|parts| - 1] == [] then ended else ended + [parts[|parts| - 1]]
  }

  function Unlines(lines: seq<string>): string {
    if lines == [] then [] else lines[0] + ['\n'] + Unlines(lines[1..])
  }

  lemma {:induction false} SplitUnlines(lines: seq<string>)
    requires forall i :: 0 <= i < |lines| ==> '\n' !in lines[i]
    ensures Split(Unlines(lines), '\n') == lines + [[]]
  {
    if lines != [] {
      SplitUnlines(lines[1..]);
      SplitHead(lines[0], '\n', Unlines(lines[1..]));
      assert [lines[0]] + (lines[1..] + [[]]) == lines + [[]];
    }
  }

  lemma LinesUnlines(lines: seq<string>)
    requires forall i :: 0 <= i < |lines| ==> '\n' !in lines[i]
    ensures Lines(Unlines(lines)) == ChopAll(lines)
  {
    SplitUnlines(lines);
    assert (lines + [[]])[..|lines|] == lines;
  }

  lemma {:induction false} SplitUnfinished(lines: seq<string>, last: string)
    requires '\n' !in last && forall i :: 0 <= i < |lines| ==> '\n' !in lines[i]
    ensures Split(Unlines(lines) + last, '\n') == lines + [last]
  {
    if lines == [] {
      assert Unlines(lines) + last == last;
      SplitNone(last, '\n');
    } else {
      SplitUnfinished(lines[1..], last);
      SplitHead(lines[0], '\n', Unlines(lines[1..]) + last);
      assert Unlines(lines) + last == lines[0] + ['\n'] + (Unlines(lines[1..]) + last);
      assert [lines[0]] + (lines[1..] + [last]) == lines + [last];
    }
  }

  /** Text behind the last newline is one more line, which keeps a return at its end. */
  lemma LinesUnfinished(lines: seq<string>, last: string)
    requires last != [] && '\n' !in last && forall i :: 0 <= i < |lines| ==> '\n' !in lines[i]
    ensures Lines(Unlines(lines) + last) == ChopAll(lines) + [last]
  {
    SplitUnfinished(lines, last);
    assert (lines + [last])[..|lines|] == lines;
  }

  function WithReturns(lines: seq<string>): (r: seq<string>)
    ensures |r| == |lines| && forall i :: 0 <= i < |r| ==> r[i] == lines[i] + ['\r']
  {
    if lines == [] then [] else [lines[0] + ['\r']] + WithReturns(lines[1..])
  }

  /** A text whose lines end with a return and a newline reads like one whose lines end with a newline only, as
      long as no line of the latter has a return at its end. */
  lemma LinesWithReturns(lines: seq<string>)
    requires forall i :: 0 <= i < |lines| ==> '\n' !in lines[i]
    ensures Lines(Unlines(WithReturns(lines))) == lines
    ensures (forall i :: 0 <= i < |lines| && lines[i] != [] ==> lines[i][|lines[i]| - 1] != '\r') ==> Lines(Unlines(lines)) == lines
  {
    hide Lines, Unlines, ChopReturn;
    LinesUnlines(lines);
    LinesUnlines(WithReturns(lines));
    forall i | 0 <= i < |lines|
      ensures ChopReturn(lines[i] + ['\r']) == lines[i]
      ensures lines[i] == [] || lines[i][|lines[i]| - 1] != '\r' ==> ChopReturn(lines[i]) == lines[i]
    {
      ReturnChopped(lines[i]);
    }
    assert ChopAll(WithReturns(lines)) == lines;
  }

  lemma ReturnChopped(line: string)
    ensures ChopReturn(line + ['\r']) == line
    ensures line == [] || line[|line| - 1] != '\r' ==> ChopReturn(line) == line
  {
  }
}
