/** String helpers shared by the message and dump builders: decimal rendering,
    joining with a separator, newline-terminated lines and newline counting. */
module Text {

  function DigitChar(d: nat): (c: char)
    requires d < 10
    ensures '0' <= c <= '9'
  {
    (48 + d) as char
  }

  function DigitValue(c: char): (d: nat)
    requires '0' <= c <= '9'
    ensures d < 10
  {
    (c as int - '0' as int) as nat
  }

  predicate IsDigits(s: string) {
    forall i :: 0 <= i < |s| ==> '0' <= s[i] <= '9'
  }

  /** Kotlin's decimal rendering of a non-negative `Int` (no leading zeros). */
  function NatToString(n: nat): string
  {
    if n < 10 then [DigitChar(n)] else NatToString(n / 10) + [DigitChar(n % 10)]
  }

  /** The rendering is a non-empty run of digits without a leading zero. */
  lemma {:induction false} NatToStringDigits(n: nat)
    ensures |NatToString(n)| >= 1 && IsDigits(NatToString(n))
    ensures |NatToString(n)| > 1 ==> NatToString(n)[0] != '0'
  {
    if n >= 10 {
      NatToStringDigits(n / 10);
      var p := NatToString(n / 10);
      assert NatToString(n) == p + [DigitChar(n % 10)];
      assert NatToString(n)[0] == p[0];
    }
  }

  /** Reads a string of decimal digits back into its value. */
  function ParseDigits(s: string): nat
    requires IsDigits(s)
  {
    if s == [] then 0 else ParseDigits(s[..|s| - 1]) * 10 + DigitValue(s[|s| - 1])
  }

  /** Rendering a count and reading it back gives the count: the rendering loses nothing. */
  lemma {:induction false} ParseNatToString(n: nat)
    ensures IsDigits(NatToString(n)) && ParseDigits(NatToString(n)) == n
  {
    NatToStringDigits(n);
    var s := NatToString(n);
    if n < 10 {
      assert s[..|s| - 1] == [];
    } else {
      var p := NatToString(n / 10);
      assert s[..|s| - 1] == p;
      ParseNatToString(n / 10);
    }
  }

  /** Kotlin's rendering of an `Int`: a minus sign for negative values. */
  function IntToString(i: int): string
  {
    if i < 0 then "-" + NatToString(-i) else NatToString(i)
  }

  /** A minus sign exactly for negative values. */
  lemma IntToStringSign(i: int)
    ensures |IntToString(i)| >= 1
    ensures i >= 0 <==> IntToString(i)[0] != '-'
  {
    NatToStringDigits(if i < 0 then -i else i);
  }

  /** Kotlin's rendering of a `Float` that holds the whole number `i`, such as
      "120.0"; this is the rendering for magnitudes below 10^7. */
  function FloatText(i: int): string
  {
    IntToString(i) + ".0"
  }

  /** A whole-number float always ends in ".0". */
  lemma FloatTextEnds(i: int)
    ensures |FloatText(i)| >= 3 && FloatText(i)[|FloatText(i)| - 2..] == ".0"
  {
    IntToStringSign(i);
    var s := FloatText(i);
    assert s[|s| - 2..] == ".0";
  }

  /** `joinToString(sep)`: the parts with `sep` between neighbours and nowhere else. */
  function Join(sep: string, parts: seq<string>): string
  {
    if |parts| == 0 then ""
    else if |parts| == 1 then parts[0]
    else parts[0] + sep + Join(sep, parts[1..])
  }

  /** Joining one more part adds the separator and the part at the end. */
  lemma {:induction false} JoinSnoc(sep: string, parts: seq<string>, x: string)
    requires |parts| >= 1
    ensures Join(sep, parts + [x]) == Join(sep, parts) + sep + x
  {
    if |parts| == 1 {
      assert (parts + [x])[1..] == [x];
    } else {
      assert (parts + [x])[1..] == parts[1..] + [x];
      JoinSnoc(sep, parts[1..], x);
    }
  }

  /** `appendLine` applied to each line in turn: every line is newline-terminated. */
  function Unlines(lines: seq<string>): string
  {
    if lines == [] then "" else lines[0] + "\n" + Unlines(lines[1..])
  }

  lemma UnlinesCons(line: string, rest: seq<string>)
    ensures Unlines([line] + rest) == line + "\n" + Unlines(rest)
  {
    assert ([line] + rest)[1..] == rest;
  }

  /** Four lines, each followed by a line break. */
  lemma UnlinesFour(a: string, b: string, c: string, d: string)
    ensures Unlines([a, b, c, d]) == a + "\n" + b + "\n" + c + "\n" + d + "\n"
  {
    UnlinesCons(d, []);
    UnlinesCons(c, [d]);
    UnlinesCons(b, [c, d]);
    UnlinesCons(a, [b, c, d]);
    assert [a, b, c, d] == [a] + [b, c, d];
    assert [b, c, d] == [b] + [c, d];
    assert [c, d] == [c] + [d];
    assert [d] == [d] + [];
  }

  /** The number of line breaks in `s`. */
  function CountNewlines(s: string): nat
  {
    if s == [] then 0 else CountNewlines(s[..|s| - 1]) + (if s[|s| - 1] == '\n' then 1 else 0)
  }

  predicate NoNewline(s: string) {
    forall i :: 0 <= i < |s| ==> s[i] != '\n'
  }

  lemma {:induction false} CountNewlinesAppend(a: string, b: string)
    ensures CountNewlines(a + b) == CountNewlines(a) + CountNewlines(b)
    decreases |b|
  {
    if b == [] {
      assert a + b == a;
    } else {
      assert (a + b)[..|a + b| - 1] == a + b[..|b| - 1];
      CountNewlinesAppend(a, b[..|b| - 1]);
    }
  }

  lemma {:induction false} NoNewlineCount(s: string)
    requires NoNewline(s)
    ensures CountNewlines(s) == 0
  {
    if s != [] {
      NoNewlineCount(s[..|s| - 1]);
    }
  }

  /** `Unlines` puts exactly one line break after each line that has none of its own. */
  lemma {:induction false} UnlinesCount(lines: seq<string>)
    requires forall i :: 0 <= i < |lines| ==> NoNewline(lines[i])
    ensures CountNewlines(Unlines(lines)) == |lines|
  {
    if lines != [] {
      UnlinesCount(lines[1..]);
      NoNewlineCount(lines[0]);
      CountNewlinesAppend(lines[0], "\n");
      CountNewlinesAppend(lines[0] + "\n", Unlines(lines[1..]));
    }
  }

  /** `Join` with a line break puts one fewer line break than there are parts. */
  lemma {:induction false} JoinLinesCount(parts: seq<string>)
    requires |parts| >= 1
    requires forall i :: 0 <= i < |parts| ==> NoNewline(parts[i])
    ensures CountNewlines(Join("\n", parts)) == |parts| - 1
  {
    NoNewlineCount(parts[0]);
    if |parts| > 1 {
      JoinLinesCount(parts[1..]);
      CountNewlinesAppend(parts[0], "\n");
      CountNewlinesAppend(parts[0] + "\n", Join("\n", parts[1..]));
    }
  }

  /** The text made of `pieces` written one after another. */
  function Concat(pieces: seq<string>): string
  {
    if pieces == [] then "" else Concat(pieces[..|pieces| - 1]) + pieces[|pieces| - 1]
  }

  /** Writing two runs of pieces one after the other writes their texts one after the other. */
  lemma {:induction false} ConcatAppend(p: seq<string>, q: seq<string>)
    ensures Concat(p + q) == Concat(p) + Concat(q)
    decreases |q|
  {
    if q == [] {
      assert p + q == p;
    } else {
      var init, last := q[..|q| - 1], q[|q| - 1];
      assert (p + q)[..|p + q| - 1] == p + init;
      assert (p + q)[|p + q| - 1] == last;
      ConcatAppend(p, init);
      assert Concat(q) == Concat(init) + last;
    }
  }

  /** One piece alone is its own text. */
  lemma ConcatSingle(x: string)
    ensures Concat([x]) == x
  {
    assert [x][..0] == [];
  }

  /** A piece followed by more pieces. */
  lemma ConcatCons(x: string, rest: seq<string>)
    ensures Concat([x] + rest) == x + Concat(rest)
  {
    ConcatAppend([x], rest);
    ConcatSingle(x);
  }

  /** More pieces only extend the text. */
  lemma ConcatPrefix(p: seq<string>, q: seq<string>)
    requires p <= q
    ensures Concat(p) <= Concat(q)
  {
    assert q == p + q[|p|..];
    ConcatAppend(p, q[|p|..]);
  }

  /** Every piece is empty. */
  predicate AllEmpty(p: seq<string>) {
    forall k :: 0 <= k < |p| ==> p[k] == []
  }

  lemma AllEmptyAppend(p: seq<string>, q: seq<string>)
    ensures AllEmpty(p + q) <==> AllEmpty(p) && AllEmpty(q)
  {
    if AllEmpty(p) && AllEmpty(q) {
      forall k | 0 <= k < |p + q| ensures (p + q)[k] == [] {
        if k >= |p| {
          assert (p + q)[k] == q[k - |p|];
        }
      }
    }
    if AllEmpty(p + q) {
      forall k | 0 <= k < |p| ensures p[k] == [] {
        assert (p + q)[k] == p[k];
      }
      forall k | 0 <= k < |q| ensures q[k] == [] {
        assert (p + q)[|p| + k] == q[k];
      }
    }
  }

  /** Text made of pieces is empty only when every piece is. */
  lemma {:induction false} ConcatEmpty(p: seq<string>)
    ensures |Concat(p)| == 0 <==> AllEmpty(p)
    decreases |p|
  {
    if p != [] {
      ConcatEmpty(p[..|p| - 1]);
      assert forall k :: 0 <= k < |p| - 1 ==> p[..|p| - 1][k] == p[k];
    }
  }

  /** The text starts with the first piece. */
  lemma ConcatFirst(p: seq<string>)
    requires |p| > 0
    ensures p[0] <= Concat(p)
  {
    assert p == [p[0]] + p[1..];
    ConcatCons(p[0], p[1..]);
  }

  /** A prefix of a prefix is a prefix. */
  lemma PrefixTrans(a: string, b: string, c: string)
    requires a <= b && b <= c
    ensures a <= c
  {
    assert c[..|b|][..|a|] == c[..|a|];
  }

  /** Appending keeps a prefix a prefix. */
  lemma PrefixAppend(a: seq<string>, b: seq<string>, c: seq<string>)
    requires a <= b
    ensures a <= b + c
  {
    assert (b + c)[..|b|] == b;
  }

  /** Appending to nothing. */
  lemma EmptyAppend(a: seq<string>)
    ensures [] + a == a
  {
  }

  /** Regrouping text. */
  lemma StringAssoc(a: string, b: string, c: string)
    ensures a + (b + c) == a + b + c
  {
  }

  /** Two pieces. */
  lemma ConcatPair(x: string, y: string)
    ensures Concat([x, y]) == x + y
  {
    ConcatCons(x, [y]);
    ConcatSingle(y);
    assert [x, y] == [x] + [y];
  }

  /** Regrouping runs of pieces. */
  lemma AppendAssoc3(o: seq<string>, a: seq<string>, b: seq<string>)
    ensures o + a + b == o + (a + b)
  {
  }

  /** Three single pieces appended one by one. */
  lemma AppendThree(o: seq<string>, x: string, y: string, z: string)
    ensures o + [x] + [y] + [z] == o + [x, y, z]
  {
  }

  /** Regrouping runs of pieces. */
  lemma AppendAssoc5(o: seq<string>, a: seq<string>, b: seq<string>, c: seq<string>, d: seq<string>, e: seq<string>)
    ensures o + a + b + c + d + e == o + (a + b + c + d + e)
  {
  }

  /** Regrouping runs of pieces. */
  lemma AppendAssoc(o: seq<string>, a: seq<string>, b: seq<string>, c: seq<string>)
    ensures o + a + b + c == o + (a + b + c)
  {
  }

  /** `StringBuilder`: the builder's text is the concatenation of what was
      appended, kept as the list of appended pieces. */
  class StringBuilder {
    var pieces: seq<string>

    constructor()
      ensures pieces == []
    {
      pieces := [];
    }

    /** `append(s)`. */
    method Append(s: string)
      modifies this
      ensures pieces == old(pieces) + [s]
    {
      pieces := pieces + [s];
    }

    /** `appendLine()`: a line break. */
    method NewLine()
      modifies this
      ensures pieces == old(pieces) + ["\n"]
    {
      pieces := pieces + ["\n"];
    }

    /** `appendLine(s)`: `s`, then a line break. */
    method AppendLine(s: string)
      modifies this
      ensures pieces == old(pieces) + [s, "\n"]
    {
      pieces := pieces + [s, "\n"];
    }

    /** `toString()`. */
    method ToString() returns (s: string)
      ensures s == Concat(pieces)
    {
      s := "";
      var i := 0;
      while i < |pieces|
        invariant 0 <= i <= |pieces|
        invariant s == Concat(pieces[..i])
      {
        assert pieces[..i + 1][..i] == pieces[..i];
        s := s + pieces[i];
        i := i + 1;
      }
      assert pieces[..i] == pieces;
    }
  }
}
