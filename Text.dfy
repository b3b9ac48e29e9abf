/** The string operations the handlers are built from: JavaScript's `||` on an optional
    string, `Array.prototype.join("\n")` and its inverse `String.prototype.split("\n")`,
    `toUpperCase` on ASCII letters, and the decimal display of an integral number. */
module Text {
  import opened Wrappers

  /** `value || fallback` where `value` is an optional string: `undefined`, `null` and the
      empty string are all falsy, so each of them yields the fallback. */
  function OrDefault(value: Option<string>, fallback: string): (r: string)
    ensures value.Some? && value.value != "" ==> r == value.value
    ensures r == fallback || (value == Some(r) && r != "")
  {
    if value.Some? && value.value != "" then value.value else fallback
  }

  /** `parts.join("\n")`: the empty array joins to the empty string. */
  function JoinLines(parts: seq<string>): (r: string)
  {
    if |parts| == 0 then ""
    else if |parts| == 1 then parts[0]
    else parts[0] + "\n" + JoinLines(parts[1..])
  }

  /** A join starts with the first part and ends with the last. */
  lemma {:induction false} JoinLinesEnds(parts: seq<string>)
    requires |parts| > 0
    ensures |parts[0]| <= |JoinLines(parts)| && JoinLines(parts)[..|parts[0]|] == parts[0]
    ensures |parts[|parts| - 1]| <= |JoinLines(parts)|
      && JoinLines(parts)[|JoinLines(parts)| - |parts[|parts| - 1]|..] == parts[|parts| - 1]
  {
    if |parts| > 1 {
      JoinLinesEnds(parts[1..]);
      var rest := JoinLines(parts[1..]);
      var last := parts[|parts| - 1];
      assert parts[1..][|parts| - 2] == last;
      var whole := parts[0] + "\n" + rest;
      assert whole[|whole| - |last|..] == rest[|rest| - |last|..];
      assert whole[..|parts[0]|] == parts[0];
    }
  }

  /** `s.split("\n")`: always at least one piece. */
  function SplitLines(s: string): (r: seq<string>)
    ensures |r| >= 1
  {
    if |s| == 0 then [""]
    else if s[0] == '\n' then [""] + SplitLines(s[1..])
    else
      var rest := SplitLines(s[1..]);
      [[s[0]] + rest[0]] + rest[1..]
  }

  /** The lines of every part, one part after the other. */
  function ConcatLines(parts: seq<string>): (r: seq<string>)
  {
    if |parts| == 0 then [] else SplitLines(parts[0]) + ConcatLines(parts[1..])
  }

  /** Putting one more character in front of the first part puts it in front of the joined text. */
  lemma JoinLinesCons(c: char, first: string, more: seq<string>)
    ensures JoinLines([[c] + first] + more) == [c] + JoinLines([first] + more)
  {
    if |more| > 0 {
      assert ([[c] + first] + more)[1..] == more;
      assert ([first] + more)[1..] == more;
    }
  }

  /** Joining the pieces of a split gives back the text: `s.split("\n").join("\n") == s`. */
  lemma {:induction false} JoinSplitLines(s: string)
    ensures JoinLines(SplitLines(s)) == s
  {
    if |s| == 0 {
    } else if s[0] == '\n' {
      JoinSplitLines(s[1..]);
      var rest := SplitLines(s[1..]);
      assert ([""] + rest)[1..] == rest;
      assert s == "\n" + s[1..];
    } else {
      JoinSplitLines(s[1..]);
      var rest := SplitLines(s[1..]);
      JoinLinesCons(s[0], rest[0], rest[1..]);
      assert [rest[0]] + rest[1..] == rest;
      assert s == [s[0]] + s[1..];
    }
  }

  /** Text without a newline splits into itself alone. */
  lemma {:induction false} SplitLinesSingle(s: string)
    requires '\n' !in s
    ensures SplitLines(s) == [s]
  {
    if |s| > 0 {
      SplitLinesSingle(s[1..]);
      assert [s[0]] + s[1..] == s;
    }
  }

  /** Splitting `x + "\n" + y` splits `x` and `y` separately. */
  lemma {:induction false} SplitLinesAppend(x: string, y: string)
    ensures SplitLines(x + "\n" + y) == SplitLines(x) + SplitLines(y)
  {
    if |x| == 0 {
      assert x + "\n" + y == "\n" + y;
      assert ("\n" + y)[1..] == y;
    } else {
      var s := x + "\n" + y;
      assert s[0] == x[0];
      assert s[1..] == x[1..] + "\n" + y;
      SplitLinesAppend(x[1..], y);
      if x[0] != '\n' {
        var rx := SplitLines(x[1..]);
        assert SplitLines(s[1..]) == rx + SplitLines(y);
        assert (rx + SplitLines(y))[0] == rx[0];
        assert (rx + SplitLines(y))[1..] == rx[1..] + SplitLines(y);
      }
    }
  }

  /** Splitting a join recovers the lines of every part, in order; when no part holds a
      newline, the split gives back exactly the parts. */
  lemma {:induction false} SplitJoinLines(parts: seq<string>)
    requires |parts| > 0
    ensures SplitLines(JoinLines(parts)) == ConcatLines(parts)
    ensures (forall i :: 0 <= i < |parts| ==> '\n' !in parts[i]) ==> ConcatLines(parts) == parts
  {
    if |parts| == 1 {
      assert ConcatLines(parts[1..]) == [];
    } else {
      SplitJoinLines(parts[1..]);
      SplitLinesAppend(parts[0], JoinLines(parts[1..]));
    }
    if forall i :: 0 <= i < |parts| ==> '\n' !in parts[i] {
      NoNewlineConcat(parts);
    }
  }

  lemma {:induction false} NoNewlineConcat(parts: seq<string>)
    requires forall i :: 0 <= i < |parts| ==> '\n' !in parts[i]
    ensures ConcatLines(parts) == parts
  {
    if |parts| > 0 {
      SplitLinesSingle(parts[0]);
      NoNewlineConcat(parts[1..]);
      assert [parts[0]] + parts[1..] == parts;
    }
  }

  /** The blocks of lines one after the other. */
  function Flatten(blocks: seq<seq<string>>): (r: seq<string>)
  {
    if |blocks| == 0 then [] else blocks[0] + Flatten(blocks[1..])
  }

  /** When part `k` splits into block `k`, the lines of all parts are the blocks flattened. */
  lemma {:induction false} ConcatLinesBlocks(parts: seq<string>, blocks: seq<seq<string>>)
    requires |parts| == |blocks|
    requires forall k :: 0 <= k < |parts| ==> SplitLines(parts[k]) == blocks[k]
    ensures ConcatLines(parts) == Flatten(blocks)
  {
    if |parts| > 0 {
      ConcatLinesBlocks(parts[1..], blocks[1..]);
    }
  }

  /** Splitting `header + "\n\n" + body` on line breaks: the header, an empty line, then the
      lines of every part of the body. */
  lemma SplitListing(header: string, parts: seq<string>)
    requires '\n' !in header && |parts| > 0
    ensures SplitLines(header + "\n\n" + JoinLines(parts)) == [header, ""] + ConcatLines(parts)
  {
    var body := JoinLines(parts);
    assert header + "\n\n" + body == header + "\n" + ("" + "\n" + body);
    SplitLinesAppend(header, "" + "\n" + body);
    SplitLinesAppend("", body);
    SplitLinesSingle(header);
    SplitJoinLines(parts);
  }

  /** A header line, an empty line, then the parts joined by line breaks: its lines are the
      header, an empty line, then the lines of every part in order. */
  lemma Listing(header: string, parts: seq<string>, blocks: seq<seq<string>>)
    requires '\n' !in header && |parts| > 0
    requires |parts| == |blocks|
    requires forall k :: 0 <= k < |parts| ==> SplitLines(parts[k]) == blocks[k]
    ensures SplitLines(header + "\n\n" + JoinLines(parts)) == [header, ""] + Flatten(blocks)
  {
    SplitListing(header, parts);
    ConcatLinesBlocks(parts, blocks);
  }

  /** Where block `i` starts when every block has `n` lines: `n * i`, counted up block by block. */
  function BlockStart(n: nat, i: nat): (r: nat)
  {
    if i == 0 then 0 else BlockStart(n, i - 1) + n
  }

  lemma {:induction false} BlockStartIsProduct(n: nat, i: nat)
    ensures BlockStart(n, i) == n * i
  {
    if i > 0 {
      BlockStartIsProduct(n, i - 1);
      assert n * i == n * (i - 1) + n;
    }
  }

  /** When every block has `n` lines, flattening keeps them in place: line `j` of block `i`
      is line `j` after the start of block `i`, and there are `n` lines per block. */
  lemma {:induction false} FlattenAt(blocks: seq<seq<string>>, n: nat, i: nat, j: nat)
    requires forall k :: 0 <= k < |blocks| ==> |blocks[k]| == n
    requires i < |blocks| && j < n
    ensures |Flatten(blocks)| == BlockStart(n, |blocks|)
    ensures BlockStart(n, i) + j < BlockStart(n, |blocks|)
    ensures Flatten(blocks)[BlockStart(n, i) + j] == blocks[i][j]
  {
    var tail := blocks[1..];
    FlattenLength(tail, n);
    var first := blocks[0];
    var rest := Flatten(tail);
    assert Flatten(blocks) == first + rest;
    if i == 0 {
      assert (first + rest)[j] == first[j];
    } else {
      FlattenAt(tail, n, i - 1, j);
      assert tail[i - 1] == blocks[i];
      var at := BlockStart(n, i - 1) + j;
      assert (first + rest)[n + at] == rest[at];
    }
  }

  lemma {:induction false} FlattenLength(blocks: seq<seq<string>>, n: nat)
    requires forall k :: 0 <= k < |blocks| ==> |blocks[k]| == n
    ensures |Flatten(blocks)| == BlockStart(n, |blocks|)
  {
    if |blocks| > 0 {
      FlattenLength(blocks[1..], n);
    }
  }

  /** `c.toUpperCase()` for one character: ASCII `a`..`z` become `A`..`Z`, everything else is kept. */
  function UpperChar(c: char): (r: char)
    ensures 'a' <= c <= 'z' ==> 'A' <= r <= 'Z' && r as int - c as int == 'A' as int - 'a' as int
    ensures !('a' <= c <= 'z') ==> r == c
  {
    if 'a' <= c <= 'z' then (c as int - 'a' as int + 'A' as int) as char else c
  }

  /** `s.toUpperCase()`, character by character. */
  function Upper(s: string): (r: string)
    ensures |r| == |s|
    ensures forall i :: 0 <= i < |s| ==> r[i] == UpperChar(s[i])
  {
    seq(|s|, i requires 0 <= i < |s| => UpperChar(s[i]))
  }

  /** Upper-casing leaves no ASCII lower-case letter, and doing it twice changes nothing. */
  lemma UpperIdempotent(s: string)
    ensures forall i :: 0 <= i < |s| ==> !('a' <= Upper(s)[i] <= 'z')
    ensures Upper(Upper(s)) == Upper(s)
  {
    assert forall i :: 0 <= i < |s| ==> UpperChar(UpperChar(s[i])) == UpperChar(s[i]);
  }

  function DigitChar(d: nat): (c: char)
    requires d < 10
    ensures '0' <= c <= '9' && c as int - '0' as int == d
  {
    (d + '0' as int) as char
  }

  /** The decimal display of a natural number: no sign and no leading zero. */
  function NatToString(n: nat): (r: string)
    ensures |r| >= 1
    ensures forall i :: 0 <= i < |r| ==> '0' <= r[i] <= '9'
    ensures |r| > 1 ==> r[0] != '0'
    ensures r[0] == '0' <==> n == 0
  {
    if n < 10 then [DigitChar(n)] else NatToString(n / 10) + [DigitChar(n % 10)]
  }

  /** `${n}` for an integral number `n`: its decimal digits, after a `-` when it is negative. */
  function IntToString(n: int): (r: string)
    ensures |r| >= (if n < 0 then 2 else 1) && '\n' !in r
    ensures r[0] == '-' <==> n < 0
    ensures forall i :: (if n < 0 then 1 else 0) <= i < |r| ==> '0' <= r[i] <= '9'
    ensures r == "0" || r[if n < 0 then 1 else 0] != '0'
  {
    if n < 0 then "-" + NatToString(-n) else NatToString(n)
  }

  /** Reads the decimal digits back, most significant first. */
  function ParseNat(s: string): nat
    requires forall i :: 0 <= i < |s| ==> '0' <= s[i] <= '9'
  {
    if |s| == 0 then 0 else ParseNat(s[..|s| - 1]) * 10 + (s[|s| - 1] as int - '0' as int)
  }

  /** Reads an optional `-` and decimal digits back. */
  function ParseInt(s: string): int
    requires |s| >= 1
    requires forall i :: (if s[0] == '-' then 1 else 0) <= i < |s| ==> '0' <= s[i] <= '9'
  {
    if s[0] == '-' then -(ParseNat(s[1..]) as int) else ParseNat(s)
  }

  lemma {:induction false} ParseNatToString(n: nat)
    ensures ParseNat(NatToString(n)) == n
  {
    var s := NatToString(n);
    if n >= 10 {
      ParseNatToString(n / 10);
      assert s[..|s| - 1] == NatToString(n / 10);
    } else {
      assert s[..|s| - 1] == "";
    }
  }

  /** The displayed integer reads back as the same integer, so distinct temperatures display differently. */
  lemma IntToStringRoundTrip(n: int)
    ensures ParseInt(IntToString(n)) == n
  {
    if n < 0 {
      ParseNatToString(-n);
      assert IntToString(n)[1..] == NatToString(-n);
    } else {
      ParseNatToString(n);
    }
  }
}
