/** Strings as the server builds them: Python's str() of integers, ljust/rjust
    padding, slicing, ASCII case mapping, "sep".join and line splitting, and the
    code-point order Python uses to compare two strings. */
module Text {

  function Min(a: int, b: int): int { if a <= b then a else b }

  function Max(a: int, b: int): int { if a >= b then a else b }

  /** `c * n` for a one-character string `c`. */
  function Repeat(c: char, n: nat): (r: string)
    ensures |r| == n
    ensures forall i :: 0 <= i < n ==> r[i] == c
  {
    if n == 0 then [] else Repeat(c, n - 1) + [c]
  }

  /** `s.ljust(width)`. */
  function LJust(s: string, width: nat): string
  {
    if |s| >= width then s else s + Repeat(' ', width - |s|)
  }

  /** `s.ljust(width)` is `s` followed by spaces up to `width` characters. */
  lemma LJustSpec(s: string, width: nat)
    ensures var r := LJust(s, width);
      && |r| == Max(|s|, width)
      && r[..|s|] == s
      && forall i :: |s| <= i < |r| ==> r[i] == ' '
  {
  }

  /** `s.rjust(width)`. */
  function RJust(s: string, width: nat): string
  {
    if |s| >= width then s else Repeat(' ', width - |s|) + s
  }

  /** `s.rjust(width)` is spaces up to `width` characters, then `s`. */
  lemma RJustSpec(s: string, width: nat)
    ensures var r := RJust(s, width);
      && |r| == Max(|s|, width)
      && r[|r| - |s|..] == s
      && forall i :: 0 <= i < |r| - |s| ==> r[i] == ' '
  {
  }

  /** `s[:n]`. */
  function Take(s: string, n: nat): (r: string)
    ensures |r| == Min(|s|, n)
    ensures r == s[..|r|]
  {
    if |s| <= n then s else s[..n]
  }

  // ---------------------------------------------------------------------------
  // Decimal rendering of integers (Python's str(int))

  predicate IsDigit(c: char) { '0' <= c <= '9' }

  predicate AllDigits(s: string) { forall i :: 0 <= i < |s| ==> IsDigit(s[i]) }

  function DigitChar(d: nat): (c: char)
    requires d < 10
    ensures IsDigit(c)
  {
    ('0' as int + d) as char
  }

  function DigitValue(c: char): (d: nat)
    requires IsDigit(c)
    ensures d < 10
  {
    c as int - '0' as int
  }

  function Pow10(k: nat): (r: nat)
    ensures r >= 1
  {
    if k == 0 then 1 else 10 * Pow10(k - 1)
  }

  /** str(n) for a natural number: its decimal digits, without leading zeros. */
  function NatToString(n: nat): (r: string)
    ensures |r| >= 1
    ensures AllDigits(r)
    ensures r[0] == '0' <==> n == 0
    decreases n
  {
    if n < 10 then [DigitChar(n)] else NatToString(n / 10) + [DigitChar(n % 10)]
  }

  /** The value of a string of decimal digits (the empty string reads as 0). */
  function ParseNat(s: string): nat
    requires AllDigits(s)
  {
    if s == [] then 0 else ParseNat(s[..|s| - 1]) * 10 + DigitValue(s[|s| - 1])
  }

  /** str(i) for any integer: a minus sign for negatives, then the digits. */
  function IntToString(i: int): (r: string)
    ensures |r| >= 1
    ensures r[0] == '-' <==> i < 0
    ensures i >= 0 ==> AllDigits(r)
  {
    if i < 0 then "-" + NatToString(-i) else NatToString(i)
  }

  /** Reading back a rendered natural number gives the number. */
  lemma {:induction false} ParseNatToString(n: nat)
    ensures ParseNat(NatToString(n)) == n
  {
    if n >= 10 {
      var s := NatToString(n);
      assert s[..|s| - 1] == NatToString(n / 10);
      ParseNatToString(n / 10);
    }
  }

  /** Distinct integers render as distinct strings. */
  lemma IntToStringInjective(a: int, b: int)
    requires IntToString(a) == IntToString(b)
    ensures a == b
  {
    if a < 0 {
      assert IntToString(a)[1..] == NatToString(-a);
      assert IntToString(b)[1..] == NatToString(-b);
      ParseNatToString(-a);
      ParseNatToString(-b);
    } else {
      ParseNatToString(a);
      ParseNatToString(b);
    }
  }

  /** A number with exactly k digits renders as exactly k characters. */
  lemma {:induction false} NatToStringLength(n: nat, k: nat)
    requires 1 <= k && n < Pow10(k)
    requires k == 1 || Pow10(k - 1) <= n
    ensures |NatToString(n)| == k
  {
    if k > 1 {
      assert n >= 10;
      assert n / 10 < Pow10(k - 1);
      if k > 2 {
        assert Pow10(k - 2) <= n / 10;
      }
      NatToStringLength(n / 10, k - 1);
    }
  }

  /** A number below 10^k renders in at most k characters. */
  lemma {:induction false} NatToStringWidth(n: nat, k: nat)
    requires 1 <= k && n < Pow10(k)
    ensures |NatToString(n)| <= k
  {
    if n >= 10 {
      NatToStringWidth(n / 10, k - 1);
    }
  }

  // ---------------------------------------------------------------------------
  // ASCII case mapping (str.lower / str.upper restricted to A-Z and a-z)

  predicate IsUpper(c: char) { 'A' <= c <= 'Z' }

  predicate IsLower(c: char) { 'a' <= c <= 'z' }

  function LowerChar(c: char): char
  {
    if IsUpper(c) then (c as int + 32) as char else c
  }

  function UpperChar(c: char): char
  {
    if IsLower(c) then (c as int - 32) as char else c
  }

  function Lower(s: string): (r: string)
    ensures |r| == |s|
    ensures forall i :: 0 <= i < |s| ==> !IsUpper(r[i])
    ensures forall i :: 0 <= i < |s| ==> !IsUpper(s[i]) ==> r[i] == s[i]
  {
    seq(|s|, i requires 0 <= i < |s| => LowerChar(s[i]))
  }

  function Upper(s: string): (r: string)
    ensures |r| == |s|
    ensures forall i :: 0 <= i < |s| ==> !IsLower(r[i])
    ensures forall i :: 0 <= i < |s| ==> !IsLower(s[i]) ==> r[i] == s[i]
  {
    seq(|s|, i requires 0 <= i < |s| => UpperChar(s[i]))
  }

  /** Lower-casing twice is lower-casing once. */
  lemma LowerIdempotent(s: string)
    ensures Lower(Lower(s)) == Lower(s)
  {
  }

  // ---------------------------------------------------------------------------
  // Python's string order: lexicographic by code point

  predicate StrLe(a: string, b: string)
    decreases |a|
  {
    a == [] || (b != [] && (a[0] < b[0] || (a[0] == b[0] && StrLe(a[1..], b[1..]))))
  }

  lemma {:induction false} StrLeRefl(a: string)
    ensures StrLe(a, a)
    decreases |a|
  {
    if a != [] {
      StrLeRefl(a[1..]);
    }
  }

  lemma {:induction false} StrLeTotal(a: string, b: string)
    ensures StrLe(a, b) || StrLe(b, a)
    decreases |a|
  {
    if a != [] && b != [] && a[0] == b[0] {
      StrLeTotal(a[1..], b[1..]);
    }
  }

  lemma {:induction false} StrLeTrans(a: string, b: string, c: string)
    requires StrLe(a, b) && StrLe(b, c)
    ensures StrLe(a, c)
    decreases |a|
  {
    if a != [] && a[0] == b[0] && b[0] == c[0] {
      StrLeTrans(a[1..], b[1..], c[1..]);
    }
  }

  // ---------------------------------------------------------------------------
  // "sep".join(parts) and splitting at a separator character

  /** `sep.join(parts)`. */
  function Join(sep: string, parts: seq<string>): string
  {
    if |parts| == 0 then ""
    else if |parts| == 1 then parts[0]
    else parts[0] + sep + Join(sep, parts[1..])
  }

  /** Joining one more part appends the separator and that part. */
  lemma {:induction false} JoinSnoc(sep: string, parts: seq<string>, last: string)
    requires |parts| >= 1
    ensures Join(sep, parts + [last]) == Join(sep, parts) + sep + last
    decreases |parts|
  {
    if |parts| > 1 {
      assert (parts + [last])[1..] == parts[1..] + [last];
      JoinSnoc(sep, parts[1..], last);
    }
  }

  /** Joining two non-empty lists of parts is joining each and putting the
      separator between. */
  lemma {:induction false} JoinAppend(sep: string, a: seq<string>, b: seq<string>)
    requires |a| >= 1 && |b| >= 1
    ensures Join(sep, a + b) == Join(sep, a) + sep + Join(sep, b)
    decreases |a|
  {
    if |a| > 1 {
      assert (a + b)[1..] == a[1..] + b;
      JoinAppend(sep, a[1..], b);
    } else {
      assert (a + b)[1..] == b;
    }
  }

  /** `s.split(sep)` for a one-character separator. */
  function Split(sep: char, s: string): (r: seq<string>)
    ensures |r| >= 1
    decreases |s|
  {
    if s == [] then [""]
    else if s[0] == sep then [""] + Split(sep, s[1..])
    else
      var t := Split(sep, s[1..]);
      [[s[0]] + t[0]] + t[1..]
  }

  predicate NoChar(c: char, s: string) { forall i :: 0 <= i < |s| ==> s[i] != c }

  /** A piece of text that holds no line break. */
  predicate OneLine(s: string) { NoChar('\n', s) }

  lemma {:induction false} SplitPlain(sep: char, p: string)
    requires NoChar(sep, p)
    ensures Split(sep, p) == [p]
    decreases |p|
  {
    if p != [] {
      SplitPlain(sep, p[1..]);
      assert [p[0]] + p[1..] == p;
    }
  }

  lemma {:induction false} SplitFirst(sep: char, p: string, rest: string)
    requires NoChar(sep, p)
    ensures Split(sep, p + [sep] + rest) == [p] + Split(sep, rest)
    decreases |p|
  {
    if p == [] {
      assert p + [sep] + rest == [sep] + rest;
      assert ([sep] + rest)[1..] == rest;
    } else {
      assert (p + [sep] + rest)[1..] == p[1..] + [sep] + rest;
      SplitFirst(sep, p[1..], rest);
      assert [p[0]] + p[1..] == p;
    }
  }

  /** Splitting a join at its separator gives back the parts, provided no
      part contains the separator. */
  lemma {:induction false} SplitJoin(sep: char, parts: seq<string>)
    requires |parts| >= 1
    requires forall i :: 0 <= i < |parts| ==> NoChar(sep, parts[i])
    ensures Split(sep, Join([sep], parts)) == parts
    decreases |parts|
  {
    if |parts| == 1 {
      SplitPlain(sep, parts[0]);
    } else {
      SplitFirst(sep, parts[0], Join([sep], parts[1..]));
      SplitJoin(sep, parts[1..]);
    }
  }

  /** Splitting a join whose last part may hold the separator gives back
      the other parts, followed by the pieces of the last one. */
  lemma {:induction false} SplitJoinLast(sep: char, parts: seq<string>, last: string)
    requires |parts| >= 1
    requires forall i :: 0 <= i < |parts| ==> NoChar(sep, parts[i])
    ensures Split(sep, Join([sep], parts + [last])) == parts + Split(sep, last)
    decreases |parts|
  {
    var all := parts + [last];
    assert all[1..] == parts[1..] + [last];
    SplitFirst(sep, parts[0], Join([sep], all[1..]));
    if |parts| == 1 {
      assert all[1..] == [last];
    } else {
      SplitJoinLast(sep, parts[1..], last);
    }
  }

  /** A join of two or more parts by a line break holds a line break. */
  lemma JoinBreaks(parts: seq<string>)
    requires |parts| >= 2
    ensures !OneLine(Join("\n", parts))
  {
    assert Join("\n", parts)[|parts[0]|] == '\n';
  }

  /** A join whose first part holds a line break holds one too. */
  lemma JoinFirstBreaks(sep: string, parts: seq<string>)
    requires |parts| >= 1 && !OneLine(parts[0])
    ensures !OneLine(Join(sep, parts))
  {
    var k :| 0 <= k < |parts[0]| && parts[0][k] == '\n';
    if |parts| > 1 {
      assert Join(sep, parts) == parts[0] + (sep + Join(sep, parts[1..]));
    }
    assert Join(sep, parts)[k] == '\n';
  }

  /** Blocks of lines stacked with an empty line between consecutive blocks:
      the lines of `"\n\n".join("\n".join(b) for b in blocks)`. */
  function Stanzas(blocks: seq<seq<string>>): seq<string>
  {
    if blocks == [] then []
    else if |blocks| == 1 then blocks[0]
    else blocks[0] + [""] + Stanzas(blocks[1..])
  }

  /** Where line j of block i sits when every block has four lines. */
  function StanzaLine(i: nat, j: nat): nat
  {
    5 * i + j
  }

  /** With four lines per block, the stack has five lines per block less the
      missing separator after the last; line j of block i is at
      `StanzaLine(i, j)`, and the line after a block that is not the last is
      empty. */
  lemma {:induction false} StanzasAt(blocks: seq<seq<string>>, i: nat, j: nat)
    requires forall k :: 0 <= k < |blocks| ==> |blocks[k]| == 4
    requires i < |blocks| && j < 5
    requires j == 4 ==> i < |blocks| - 1
    ensures |Stanzas(blocks)| == 5 * |blocks| - 1
    ensures StanzaLine(i, j) < |Stanzas(blocks)|
    ensures j < 4 ==> Stanzas(blocks)[StanzaLine(i, j)] == blocks[i][j]
    ensures j == 4 ==> Stanzas(blocks)[StanzaLine(i, j)] == ""
    decreases |blocks|
  {
    if |blocks| > 1 {
      var rest := Stanzas(blocks[1..]);
      if i > 0 {
        StanzasAt(blocks[1..], i - 1, j);
      } else {
        StanzasAt(blocks[1..], 0, 0);
      }
      assert Stanzas(blocks) == blocks[0] + [""] + rest;
    }
  }

  /** The stacked lines joined with newlines are the blocks joined with
      newlines, then with blank lines. */
  lemma {:induction false} StanzasJoin(blocks: seq<seq<string>>)
    requires |blocks| >= 1
    requires forall k :: 0 <= k < |blocks| ==> |blocks[k]| >= 1
    ensures Join("\n", Stanzas(blocks))
      == Join("\n\n", seq(|blocks|, i requires 0 <= i < |blocks| => Join("\n", blocks[i])))
    decreases |blocks|
  {
    var texts := seq(|blocks|, i requires 0 <= i < |blocks| => Join("\n", blocks[i]));
    if |blocks| > 1 {
      var rest := blocks[1..];
      StanzasJoin(rest);
      assert texts[1..] == seq(|rest|, i requires 0 <= i < |rest| => Join("\n", rest[i]));
      JoinSnoc("\n", blocks[0], "");
      JoinAppend("\n", blocks[0] + [""], Stanzas(rest));
      assert Join("\n", blocks[0]) + "\n" + "" + "\n" == Join("\n", blocks[0]) + "\n\n";
    }
  }

  /** Every stacked line is a line of a block or the empty separator. */
  lemma {:induction false} StanzasOneLine(blocks: seq<seq<string>>)
    requires forall k, j :: 0 <= k < |blocks| && 0 <= j < |blocks[k]| ==> OneLine(blocks[k][j])
    ensures forall n :: 0 <= n < |Stanzas(blocks)| ==> OneLine(Stanzas(blocks)[n])
    decreases |blocks|
  {
    if |blocks| > 1 {
      StanzasOneLine(blocks[1..]);
      assert forall n :: 0 <= n < |Stanzas(blocks[1..])| ==> OneLine(Stanzas(blocks[1..])[n]);
    }
  }

  /** Text built line by line, `result += line + "\n"` for each line. */
  function Lines(ls: seq<string>): string
  {
    if ls == [] then "" else ls[0] + "\n" + Lines(ls[1..])
  }

  /** Text built line by line is the lines joined by newlines, with a final
      newline. */
  lemma {:induction false} LinesAsJoin(ls: seq<string>)
    ensures Lines(ls) == Join("\n", ls + [""])
  {
    if ls != [] {
      LinesAsJoin(ls[1..]);
      assert (ls + [""])[1..] == ls[1..] + [""];
    }
  }

  /** Splitting text built line by line gives back its lines, then the empty
      string after the final newline. */
  lemma SplitLines(ls: seq<string>)
    requires forall i :: 0 <= i < |ls| ==> OneLine(ls[i])
    ensures Split('\n', Lines(ls)) == ls + [""]
  {
    LinesAsJoin(ls);
    SplitJoin('\n', ls + [""]);
  }

  /** `s.lstrip(" ")`. */
  function TrimLeadingSpaces(s: string): (r: string)
    ensures |r| <= |s|
  {
    if s != [] && s[0] == ' ' then TrimLeadingSpaces(s[1..]) else s
  }

  /** Right-justifying and then stripping the padding gives back the text,
      when the text does not itself start with a space. */
  lemma {:induction false} TrimRJust(s: string, width: nat)
    requires s != [] && s[0] != ' '
    ensures TrimLeadingSpaces(RJust(s, width)) == s
    decreases width
  {
    if |s| < width {
      var r := RJust(s, width);
      RJustSpec(s, width);
      RJustSpec(s, width - 1);
      assert r[1..] == RJust(s, width - 1);
      TrimRJust(s, width - 1);
    }
  }

  /** A join of parts and a separator free of `c` is free of `c`. */
  lemma {:induction false} JoinNoChar(c: char, sep: string, parts: seq<string>)
    requires NoChar(c, sep)
    requires forall i :: 0 <= i < |parts| ==> NoChar(c, parts[i])
    ensures NoChar(c, Join(sep, parts))
  {
    if |parts| > 1 {
      JoinNoChar(c, sep, parts[1..]);
      NoCharAppend(c, parts[0], sep);
      NoCharAppend(c, parts[0] + sep, Join(sep, parts[1..]));
    }
  }

  lemma NoCharAppend(c: char, a: string, b: string)
    requires NoChar(c, a) && NoChar(c, b)
    ensures NoChar(c, a + b)
  {
  }
}
