/**
 * String helpers shared by the tokenizer, the renderer and the facade:
 * the JavaScript whitespace class, `split('\n')` and `join('\n')`,
 * repeated concatenation, and the default string order of `Array.prototype.sort`.
 */
module Text {

  /** The characters matched by `\s` in a JavaScript regular expression. */
  predicate IsWhitespace(c: char)
  {
    c == '\t' || c == '\n' || c == '\U{B}' || c == '\U{C}' || c == '\r' || c == ' '
    || c == '\U{A0}' || c == '\U{1680}' || ('\U{2000}' <= c <= '\U{200A}')
    || c == '\U{2028}' || c == '\U{2029}' || c == '\U{202F}' || c == '\U{205F}'
    || c == '\U{3000}' || c == '\U{FEFF}'
  }

  /** A string with no non-whitespace character: `/^\s*$/.test(s)`, equivalently `!/\S/.test(s)`. */
  function IsBlank(s: string): (b: bool)
    ensures b <==> forall i | 0 <= i < |s| :: IsWhitespace(s[i])
  {
    if s == [] then true else IsWhitespace(s[0]) && IsBlank(s[1..])
  }

  /** `lines.join('\n')`. */
  function Join(lines: seq<string>): string
  {
    if |lines| == 0 then ""
    else if |lines| == 1 then lines[0]
    else lines[0] + "\n" + Join(lines[1..])
  }

  predicate NoNewline(line: string)
  {
    forall i | 0 <= i < |line| :: line[i] != '\n'
  }

  /** `s.split('\n')`: never empty. */
  function Split(s: string): (r: seq<string>)
    ensures |r| >= 1
  {
    if s == [] then [""]
    else if s[0] == '\n' then [""] + Split(s[1..])
    else
      var rest := Split(s[1..]);
      [[s[0]] + rest[0]] + rest[1..]
  }

  /** No piece of a split holds a newline. */
  lemma {:induction false} SplitNoNewline(s: string)
    ensures forall k | 0 <= k < |Split(s)| :: NoNewline(Split(s)[k])
  {
    if s != [] {
      SplitNoNewline(s[1..]);
      var rest := Split(s[1..]);
      if s[0] != '\n' {
        assert NoNewline([s[0]] + rest[0]);
        assert Split(s) == [[s[0]] + rest[0]] + rest[1..];
      }
    }
  }

  /** Joining the pieces of a split gives the string back. */
  lemma {:induction false} JoinSplit(s: string)
    ensures Join(Split(s)) == s
  {
    if s != [] {
      JoinSplit(s[1..]);
      var rest := Split(s[1..]);
      if s[0] == '\n' {
        assert Split(s) == [""] + rest;
        assert s == "\n" + s[1..];
      } else if |rest| == 1 {
        assert Split(s) == [[s[0]] + rest[0]];
        assert s == [s[0]] + s[1..];
      } else {
        assert Split(s) == [[s[0]] + rest[0]] + rest[1..];
        assert Join(Split(s)) == [s[0]] + rest[0] + "\n" + Join(rest[1..]);
        assert s == [s[0]] + s[1..];
      }
    }
  }

  /** Splitting undoes joining, for lines without newlines. */
  lemma {:induction false} SplitJoin(lines: seq<string>)
    requires |lines| >= 1
    requires forall k | 0 <= k < |lines| :: NoNewline(lines[k])
    ensures Split(Join(lines)) == lines
  {
    if |lines| == 1 {
      SplitLine(lines[0]);
    } else {
      SplitJoin(lines[1..]);
      SplitPrefix(lines[0], Join(lines[1..]));
      assert lines == [lines[0]] + lines[1..];
    }
  }

  lemma {:induction false} SplitLine(line: string)
    requires NoNewline(line)
    ensures Split(line) == [line]
  {
    if line != [] {
      SplitLine(line[1..]);
      assert [line[0]] + line[1..] == line;
    }
  }

  lemma {:induction false} SplitPrefix(line: string, rest: string)
    requires NoNewline(line)
    ensures Split(line + "\n" + rest) == [line] + Split(rest)
  {
    if line == [] {
      assert line + "\n" + rest == "\n" + rest;
      assert ("\n" + rest)[1..] == rest;
    } else {
      assert (line + "\n" + rest)[1..] == line[1..] + "\n" + rest;
      SplitPrefix(line[1..], rest);
      assert [line[0]] + line[1..] == line;
    }
  }

  /** `k` copies of `unit` concatenated. */
  function Repeat(unit: string, k: nat): (r: string)
    ensures |r| == k * |unit|
    ensures k > 0 ==> r[..|unit|] == unit
  {
    if k == 0 then "" else unit + Repeat(unit, k - 1)
  }

  /** Repeating a single character gives nothing but that character. */
  lemma {:induction false} RepeatChar(c: char, k: nat)
    ensures forall i | 0 <= i < |Repeat([c], k)| :: Repeat([c], k)[i] == c
  {
    if k > 0 {
      RepeatChar(c, k - 1);
      assert Repeat([c], k) == [c] + Repeat([c], k - 1);
    }
  }

  /** After the first copy, every character of a repetition repeats the one `|unit|` places earlier. */
  lemma {:induction false} RepeatPeriodic(unit: string, k: nat, i: nat)
    requires |unit| <= i < |Repeat(unit, k)|
    ensures Repeat(unit, k)[i] == Repeat(unit, k)[i - |unit|]
  {
    var rest := Repeat(unit, k - 1);
    assert Repeat(unit, k)[i] == rest[i - |unit|];
    if i - |unit| >= |unit| {
      RepeatPeriodic(unit, k - 1, i - |unit|);
    }
  }

  /** Appending one more copy at the end, as `result += unit` does, gives the next repetition. */
  lemma {:induction false} RepeatAppend(unit: string, k: nat)
    ensures Repeat(unit, k) + unit == Repeat(unit, k + 1)
  {
    if k > 0 {
      RepeatAppend(unit, k - 1);
      assert Repeat(unit, k) + unit == unit + (Repeat(unit, k - 1) + unit);
    }
  }

  /** The default order of `Array.prototype.sort` on strings: lexicographic by character, a prefix first. */
  predicate LexLe(a: string, b: string)
  {
    if a == [] then true
    else if b == [] then false
    else if a[0] != b[0] then a[0] < b[0]
    else LexLe(a[1..], b[1..])
  }

  lemma {:induction false} LexLeTotal(a: string, b: string)
    ensures LexLe(a, b) || LexLe(b, a)
  {
    if a != [] && b != [] && a[0] == b[0] {
      LexLeTotal(a[1..], b[1..]);
    }
  }

  lemma {:induction false} LexLeAntisymmetric(a: string, b: string)
    requires LexLe(a, b) && LexLe(b, a)
    ensures a == b
  {
    if a != [] && b != [] {
      LexLeAntisymmetric(a[1..], b[1..]);
      assert a == [a[0]] + a[1..] && b == [b[0]] + b[1..];
    }
  }

  lemma {:induction false} LexLeTransitive(a: string, b: string, c: string)
    requires LexLe(a, b) && LexLe(b, c)
    ensures LexLe(a, c)
  {
    if a != [] && b != [] && c != [] && a[0] == b[0] && b[0] == c[0] {
      LexLeTransitive(a[1..], b[1..], c[1..]);
    }
  }

  predicate Sorted(s: seq<string>)
  {
    forall i, j | 0 <= i < j < |s| :: LexLe(s[i], s[j])
  }

  /** Inserts `x` before the first element it does not follow. */
  function Insert(x: string, s: seq<string>): (r: seq<string>)
    requires Sorted(s)
    ensures Sorted(r)
    ensures multiset(r) == multiset(s) + multiset{x}
  {
    if s == [] || LexLe(x, s[0]) then
      assert forall j | 0 <= j < |s| :: LexLe(x, s[j]) by {
        forall j | 0 <= j < |s| ensures LexLe(x, s[j]) {
          if j > 0 {
            LexLeTransitive(x, s[0], s[j]);
          }
        }
      }
      [x] + s
    else
      LexLeTotal(x, s[0]);
      var rest := Insert(x, s[1..]);
      InsertBehindHead(x, s, rest);
      assert s == [s[0]] + s[1..];
      [s[0]] + rest
  }

  lemma InsertBehindHead(x: string, s: seq<string>, rest: seq<string>)
    requires Sorted(s) && |s| > 0 && LexLe(s[0], x)
    requires Sorted(rest) && multiset(rest) == multiset(s[1..]) + multiset{x}
    ensures Sorted([s[0]] + rest)
  {
    forall j | 0 <= j < |rest|
      ensures LexLe(s[0], rest[j])
    {
      assert rest[j] in multiset(rest);
      if rest[j] != x {
        assert rest[j] in multiset(s[1..]);
        assert rest[j] in s[1..];
        var k :| 0 <= k < |s| - 1 && s[1..][k] == rest[j];
        assert s[k + 1] == rest[j];
      }
    }
  }

  /** The sorted order `Array.prototype.sort()` gives a list of names: ascending, and a permutation of its input. */
  function Sort(s: seq<string>): (r: seq<string>)
    ensures Sorted(r)
    ensures multiset(r) == multiset(s)
  {
    if s == [] then []
    else
      assert s == [s[0]] + s[1..];
      Insert(s[0], Sort(s[1..]))
  }
}
