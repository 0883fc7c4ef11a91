/**
 * The string operations the fetcher relies on: `str.lower`, `"".join`, and a
 * line view of a text (`str.split("\n")`) used to state the shape of a query.
 */
module Text {

  /** Lower-cases one ASCII letter; every other character is unchanged. */
  function LowerChar(c: char): (r: char)
    ensures 'A' <= c <= 'Z' ==> 'a' <= r <= 'z' && r as int == c as int + 32
    ensures !('A' <= c <= 'Z') ==> r == c
    ensures !('A' <= r <= 'Z')
  {
    if 'A' <= c <= 'Z' then (c as int - 'A' as int + 'a' as int) as char else c
  }

  /** `s.lower()`, restricted to the ASCII letters. */
  function Lower(s: string): (r: string)
    ensures |r| == |s|
    ensures forall i :: 0 <= i < |s| ==> r[i] == LowerChar(s[i])
    ensures forall i :: 0 <= i < |r| ==> !('A' <= r[i] <= 'Z')
  {
    seq(|s|, i requires 0 <= i < |s| => LowerChar(s[i]))
  }

  /** `"".join(parts)`: the parts glued together in order. */
  function Concat(parts: seq<string>): (r: string)
    ensures parts == [] ==> r == ""
    ensures |parts| == 1 ==> r == parts[0]
  {
    if parts == [] then "" else Concat(parts[..|parts| - 1]) + parts[|parts| - 1]
  }

  lemma {:induction false} ConcatAppend(a: seq<string>, b: seq<string>)
    ensures Concat(a + b) == Concat(a) + Concat(b)
    decreases |b|
  {
    if b == [] {
      assert a + b == a;
    } else {
      var b' := b[..|b| - 1];
      assert (a + b)[..|a + b| - 1] == a + b';
      ConcatAppend(a, b');
    }
  }

  lemma AppendAssoc(a: string, b: string, c: string)
    ensures a + b + c == a + (b + c)
  {
  }

  /** The length of a concatenation is the sum of the part lengths. */
  function SumLengths(parts: seq<string>): nat
  {
    if parts == [] then 0 else SumLengths(parts[..|parts| - 1]) + |parts[|parts| - 1]|
  }

  lemma {:induction false} ConcatLength(parts: seq<string>)
    ensures |Concat(parts)| == SumLengths(parts)
  {
    if parts != [] {
      ConcatLength(parts[..|parts| - 1]);
    }
  }

  predicate NoNewline(s: string)
  {
    forall i :: 0 <= i < |s| ==> s[i] != '\n'
  }

  /** `s.split("\n")`: the lines of `s`; a text without a newline is one line. */
  function SplitLines(s: string): (r: seq<string>)
    ensures |r| >= 1
    decreases |s|
  {
    if s == [] then [""]
    else if s[0] == '\n' then [""] + SplitLines(s[1..])
    else
      var rest := SplitLines(s[1..]);
      [[s[0]] + rest[0]] + rest[1..]
  }

  /** `"\n".join(lines)`. */
  function JoinLines(lines: seq<string>): string
    requires |lines| >= 1
  {
    if |lines| == 1 then lines[0] else lines[0] + "\n" + JoinLines(lines[1..])
  }

  /** Each line preceded by a newline, as the query template appends its sections. */
  function NewlinePrefixed(lines: seq<string>): string
  {
    if lines == [] then "" else "\n" + lines[0] + NewlinePrefixed(lines[1..])
  }

  lemma {:induction false} NewlinePrefixedAppend(a: seq<string>, b: seq<string>)
    ensures NewlinePrefixed(a + b) == NewlinePrefixed(a) + NewlinePrefixed(b)
    decreases |a|
  {
    if a == [] {
      assert a + b == b;
    } else {
      assert (a + b)[0] == a[0] && (a + b)[1..] == a[1..] + b;
      NewlinePrefixedAppend(a[1..], b);
    }
  }

  /** The middle of a three-part string sits right after its first part. */
  lemma MiddleOf(p: string, m: string, x: string)
    ensures (p + m + x)[..|p|] == p
    ensures (p + m + x)[|p|..|p| + |m|] == m
  {
  }

  lemma NewlinePrefixed3(a: string, b: string, c: string)
    ensures NewlinePrefixed([a, b, c]) == "\n" + a + "\n" + b + "\n" + c
  {
    assert [a, b, c][1..] == [b, c];
    assert [b, c][1..] == [c];
    assert [c][1..] == [];
    calc {
      NewlinePrefixed([a, b, c]);
      "\n" + a + NewlinePrefixed([b, c]);
      "\n" + a + ("\n" + b + NewlinePrefixed([c]));
      "\n" + a + ("\n" + b + ("\n" + c + NewlinePrefixed([])));
      "\n" + a + ("\n" + b + ("\n" + c + ""));
      { assert "\n" + c + "" == "\n" + c; }
      "\n" + a + ("\n" + b + ("\n" + c));
      { AppendAssoc("\n" + b, "\n", c); }
      "\n" + a + ("\n" + b + "\n" + c);
      { AppendAssoc("\n" + a, "\n" + b + "\n", c);
        AppendAssoc("\n" + a, "\n" + b, "\n"); }
      "\n" + a + "\n" + b + "\n" + c;
    }
  }

  lemma NewlinePrefixed4(a: string, b: string, c: string, d: string)
    ensures NewlinePrefixed([a, b, c, d]) == "\n" + a + "\n" + b + "\n" + c + "\n" + d
  {
    assert [a, b, c, d][1..] == [b, c, d];
    NewlinePrefixed3(b, c, d);
  }

  lemma NewlinePrefixed5(a: string, b: string, c: string, d: string, e: string)
    ensures NewlinePrefixed([a, b, c, d, e]) == "\n" + a + "\n" + b + "\n" + c + "\n" + d + "\n" + e
  {
    assert [a, b, c, d, e][1..] == [b, c, d, e];
    NewlinePrefixed4(b, c, d, e);
  }

  /** A first line followed by newline-prefixed lines is the joined text. */
  lemma {:induction false} JoinLinesCons(first: string, rest: seq<string>)
    ensures JoinLines([first] + rest) == first + NewlinePrefixed(rest)
    decreases |rest|
  {
    if rest != [] {
      assert ([first] + rest)[1..] == [rest[0]] + rest[1..];
      JoinLinesCons(rest[0], rest[1..]);
    }
  }

  /** Joining an empty first line and three blocks of lines, each block newline-prefixed. */
  lemma JoinBlocks(a: seq<string>, b: seq<string>, c: seq<string>)
    ensures JoinLines([""] + a + b + c) == NewlinePrefixed(a) + NewlinePrefixed(b) + NewlinePrefixed(c)
  {
    calc {
      JoinLines([""] + a + b + c);
      { assert [""] + a + b + c == [""] + (a + b + c); }
      JoinLines([""] + (a + b + c));
      { JoinLinesCons("", a + b + c); }
      "" + NewlinePrefixed(a + b + c);
      { NewlinePrefixedAppend(a + b, c); }
      "" + (NewlinePrefixed(a + b) + NewlinePrefixed(c));
      { NewlinePrefixedAppend(a, b); }
      NewlinePrefixed(a) + NewlinePrefixed(b) + NewlinePrefixed(c);
    }
  }

  lemma {:induction false} SplitSingle(line: string)
    requires NoNewline(line)
    ensures SplitLines(line) == [line]
    decreases |line|
  {
    if line != [] {
      SplitSingle(line[1..]);
      assert [line[0]] + line[1..] == line;
    }
  }

  lemma {:induction false} SplitAtNewline(line: string, rest: string)
    requires NoNewline(line)
    ensures SplitLines(line + "\n" + rest) == [line] + SplitLines(rest)
    decreases |line|
  {
    var s := line + "\n" + rest;
    if line == [] {
      assert s[0] == '\n' && s[1..] == rest;
    } else {
      assert s[0] == line[0] && s[1..] == line[1..] + "\n" + rest;
      SplitAtNewline(line[1..], rest);
      assert [line[0]] + line[1..] == line;
    }
  }

  /** Splitting joined lines gives the lines back, when no line holds a newline. */
  lemma {:induction false} SplitJoin(lines: seq<string>)
    requires |lines| >= 1
    requires forall i :: 0 <= i < |lines| ==> NoNewline(lines[i])
    ensures SplitLines(JoinLines(lines)) == lines
    decreases |lines|
  {
    if |lines| == 1 {
      SplitSingle(lines[0]);
    } else {
      SplitJoin(lines[1..]);
      SplitAtNewline(lines[0], JoinLines(lines[1..]));
      assert [lines[0]] + lines[1..] == lines;
    }
  }
}
