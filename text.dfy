/** String operations of Python's `str` that the program relies on, stated on `seq<char>`. */
module Text {

  // ---------------------------------------------------------------- case mapping

  /** `str.lower` on one character; only the ASCII letters are mapped. */
  function LowerChar(c: char): char {
    if 'A' <= c <= 'Z' then (c as int + 32) as char else c
  }

  function UpperChar(c: char): char {
    if 'a' <= c <= 'z' then (c as int - 32) as char else c
  }

  function Lower(s: string): (r: string)
    ensures |r| == |s|
    ensures forall i :: 0 <= i < |s| ==> r[i] == LowerChar(s[i])
  {
    seq(|s|, i requires 0 <= i < |s| => LowerChar(s[i]))
  }

  function Upper(s: string): (r: string)
    ensures |r| == |s|
    ensures forall i :: 0 <= i < |s| ==> r[i] == UpperChar(s[i])
  {
    seq(|s|, i requires 0 <= i < |s| => UpperChar(s[i]))
  }

  predicate IsLower(s: string) {
    forall i :: 0 <= i < |s| ==> !('A' <= s[i] <= 'Z')
  }

  /** Lowering leaves no upper-case letter behind, and lowering twice is lowering once. */
  lemma LowerIsLower(s: string)
    ensures IsLower(Lower(s))
    ensures Lower(Lower(s)) == Lower(s)
  {
  }

  lemma LowerOfLower(s: string)
    requires IsLower(s)
    ensures Lower(s) == s
  {
  }

  // ---------------------------------------------------------------- split and join

  /** `s.split(sep)` for a one-character separator: the pieces between separators, at least one. */
  function Split(s: string, sep: char): (parts: seq<string>)
    ensures |parts| >= 1
    decreases |s|
  {
    if |s| == 0 then [""]
    else
      var rest := Split(s[1..], sep);
      if s[0] == sep then [""] + rest
      else [[s[0]] + rest[0]] + rest[1..]
  }

  /** `sep.join(parts)`. */
  function Join(parts: seq<string>, sep: string): string
    decreases |parts|
  {
    if |parts| == 0 then ""
    else if |parts| == 1 then parts[0]
    else parts[0] + sep + Join(parts[1..], sep)
  }

  /** Concatenation of all pieces, in order (`"".join(parts)`). */
  function Concat(parts: seq<string>): string
    decreases |parts|
  {
    if |parts| == 0 then "" else parts[0] + Concat(parts[1..])
  }

  predicate FreeOf(s: string, c: char) {
    forall i :: 0 <= i < |s| ==> s[i] != c
  }

  lemma FreeOfAppend(x: string, y: string, c: char)
    requires FreeOf(x, c) && FreeOf(y, c)
    ensures FreeOf(x + y, c)
  {
    forall i | 0 <= i < |x + y| ensures (x + y)[i] != c {
      if i >= |x| { assert (x + y)[i] == y[i - |x|]; }
    }
  }

  predicate AllFreeOf(parts: seq<string>, c: char) {
    forall k :: 0 <= k < |parts| ==> FreeOf(parts[k], c)
  }

  /** No piece of a split contains the separator. */
  lemma {:induction false} SplitPiecesFree(s: string, sep: char)
    ensures AllFreeOf(Split(s, sep), sep)
    decreases |s|
  {
    if |s| > 0 {
      SplitPiecesFree(s[1..], sep);
    }
  }

  /** Joining the pieces of a split with the separator gives back the string. */
  lemma {:induction false} JoinSplit(s: string, sep: char)
    ensures Join(Split(s, sep), [sep]) == s
    decreases |s|
  {
    if |s| > 0 {
      var rest := Split(s[1..], sep);
      JoinSplit(s[1..], sep);
      if s[0] == sep {
        assert Split(s, sep) == [""] + rest;
        assert s == [sep] + s[1..];
      } else {
        var parts := Split(s, sep);
        assert parts == [[s[0]] + rest[0]] + rest[1..];
        if |rest| == 1 {
          assert s == [s[0]] + rest[0];
        } else {
          assert parts[1..] == rest[1..];
          assert Join(rest, [sep]) == rest[0] + [sep] + Join(rest[1..], [sep]);
          assert s == [s[0]] + s[1..];
        }
      }
    }
  }

  /** Splitting a join of separator-free pieces gives back the pieces. */
  lemma {:induction false} SplitJoin(parts: seq<string>, sep: char)
    requires |parts| >= 1
    requires AllFreeOf(parts, sep)
    ensures Split(Join(parts, [sep]), sep) == parts
    decreases |parts|
  {
    if |parts| == 1 {
      SplitFree(parts[0], sep);
    } else {
      SplitJoin(parts[1..], sep);
      SplitAppend(parts[0], Join(parts[1..], [sep]), sep);
      SplitFree(parts[0], sep);
      assert Join(parts, [sep]) == parts[0] + [sep] + Join(parts[1..], [sep]);
      assert [parts[0]] + parts[1..] == parts;
    }
  }

  /** A string without the separator splits into itself. */
  lemma {:induction false} SplitFree(s: string, sep: char)
    requires FreeOf(s, sep)
    ensures Split(s, sep) == [s]
    decreases |s|
  {
    if |s| > 0 {
      SplitFree(s[1..], sep);
      assert [s[0]] + s[1..] == s;
    }
  }

  /** One unfolding of `Split` on a string given as its first character and the rest. */
  lemma SplitCons(c: char, t: string, sep: char)
    ensures Split([c] + t, sep) ==
      if c == sep then [""] + Split(t, sep) else [[c] + Split(t, sep)[0]] + Split(t, sep)[1..]
  {
    assert ([c] + t)[1..] == t;
  }

  lemma {:induction false} SplitAppend(a: string, b: string, sep: char)
    ensures Split(a + [sep] + b, sep) == Split(a, sep) + Split(b, sep)
    decreases |a|
  {
    if |a| == 0 {
      assert a + [sep] + b == [sep] + b;
      SplitCons(sep, b, sep);
    } else {
      var t := a[1..];
      assert a == [a[0]] + t;
      SplitAppend(t, b, sep);
      SplitAppendStep(a[0], t, b, sep);
    }
  }

  /** The inductive step of `SplitAppend`: a character put in front of both sides. */
  lemma SplitAppendStep(c: char, t: string, b: string, sep: char)
    requires Split(t + [sep] + b, sep) == Split(t, sep) + Split(b, sep)
    ensures Split([c] + t + [sep] + b, sep) == Split([c] + t, sep) + Split(b, sep)
  {
    assert [c] + t + [sep] + b == [c] + (t + [sep] + b);
    SplitCons(c, t + [sep] + b, sep);
    SplitCons(c, t, sep);
    if c == sep {
      PrependAssoc("", Split(t, sep), Split(b, sep));
    } else {
      HeadExtend([c], Split(t, sep), Split(b, sep));
    }
  }

  lemma PrependAssoc<T>(x: T, xs: seq<T>, ys: seq<T>)
    ensures [x] + (xs + ys) == ([x] + xs) + ys
  {
  }

  /** Extending the first piece of `xs + ys` only touches `xs` when `xs` is non-empty. */
  lemma HeadExtend(p: string, xs: seq<string>, ys: seq<string>)
    requires |xs| >= 1
    ensures [p + (xs + ys)[0]] + (xs + ys)[1..] == ([p + xs[0]] + xs[1..]) + ys
  {
    assert (xs + ys)[0] == xs[0];
    assert (xs + ys)[1..] == xs[1..] + ys;
  }

  /** The last piece of a join of two or more pieces follows the last separator. */
  lemma {:induction false} JoinSnoc(parts: seq<string>, sep: string)
    requires |parts| >= 2
    ensures Join(parts, sep) == Join(parts[..|parts| - 1], sep) + sep + parts[|parts| - 1]
    decreases |parts|
  {
    if |parts| > 2 {
      JoinSnoc(parts[1..], sep);
      assert parts[1..][..|parts| - 2] == parts[..|parts| - 1][1..];
    }
  }

  lemma {:induction false} ConcatAppend(xs: seq<string>, ys: seq<string>)
    ensures Concat(xs + ys) == Concat(xs) + Concat(ys)
    decreases |xs|
  {
    if |xs| == 0 {
      assert xs + ys == ys;
    } else {
      ConcatAppend(xs[1..], ys);
      assert (xs + ys)[1..] == xs[1..] + ys;
    }
  }

  /** Concatenating one more piece appends it. */
  lemma ConcatSnoc(xs: seq<string>, x: string)
    ensures Concat(xs + [x]) == Concat(xs) + x
  {
    ConcatAppend(xs, [x]);
    assert [x][1..] == [];
  }

  // ---------------------------------------------------------------- bulleted lists

  /** Every item with `prefix` in front, in order (the generator `f'{prefix}{x}' for x in items`). */
  function Prefixed(prefix: string, items: seq<string>): (r: seq<string>)
    ensures |r| == |items|
    ensures forall k :: 0 <= k < |items| ==> r[k] == prefix + items[k]
  {
    seq(|items|, k requires 0 <= k < |items| => prefix + items[k])
  }

  /** `chr(10).join(f'{prefix}{x}' for x in items)`: one line per item. */
  function Bulleted(prefix: string, items: seq<string>): string {
    Join(Prefixed(prefix, items), "\n")
  }

  /** The lines of a non-empty bulleted list are exactly the prefixed items, in order. */
  lemma BulletedLines(prefix: string, items: seq<string>)
    requires |items| >= 1
    requires FreeOf(prefix, '\n') && AllFreeOf(items, '\n')
    ensures Split(Bulleted(prefix, items), '\n') == Prefixed(prefix, items)
  {
    var lines := Prefixed(prefix, items);
    forall k | 0 <= k < |lines| ensures FreeOf(lines[k], '\n') {
      assert lines[k] == prefix + items[k];
      assert FreeOf(items[k], '\n');
    }
    SplitJoin(lines, '\n');
  }

  // ---------------------------------------------------------------- whitespace

  /** The characters `str.strip()` removes (Python's `str.isspace`). */
  predicate IsSpace(c: char) {
    c == ' ' || c == '\t' || c == '\n' || c == '\r' || c == '\U{000B}' || c == '\U{000C}'
    || ('\U{001C}' <= c <= '\U{001F}') || c == '\U{0085}' || c == '\U{00A0}' || c == '\U{1680}'
    || ('\U{2000}' <= c <= '\U{200A}') || c == '\U{2028}' || c == '\U{2029}' || c == '\U{202F}'
    || c == '\U{205F}' || c == '\U{3000}'
  }

  function StripLeft(s: string): (r: string)
    decreases |s|
  {
    if |s| > 0 && IsSpace(s[0]) then StripLeft(s[1..]) else s
  }

  function StripRight(s: string): (r: string)
    decreases |s|
  {
    if |s| > 0 && IsSpace(s[|s| - 1]) then StripRight(s[..|s| - 1]) else s
  }

  /** `s.strip()`. */
  function Strip(s: string): string {
    StripRight(StripLeft(s))
  }

  predicate AllSpace(s: string) {
    forall i :: 0 <= i < |s| ==> IsSpace(s[i])
  }

  lemma {:induction false} StripLeftEmpty(s: string)
    ensures StripLeft(s) == "" <==> AllSpace(s)
    decreases |s|
  {
    if |s| > 0 {
      StripLeftEmpty(s[1..]);
      if IsSpace(s[0]) {
        assert AllSpace(s) <==> AllSpace(s[1..]) by {
          if AllSpace(s[1..]) {
            forall i | 0 <= i < |s| ensures IsSpace(s[i]) {
              if i > 0 { assert s[i] == s[1..][i - 1]; }
            }
          }
        }
      }
    }
  }

  lemma {:induction false} StripRightKeepsNonEmpty(s: string)
    requires |s| > 0 && !IsSpace(s[0])
    ensures StripRight(s) != ""
    decreases |s|
  {
    if IsSpace(s[|s| - 1]) {
      StripRightKeepsNonEmpty(s[..|s| - 1]);
    }
  }

  /** `not s.strip()` holds exactly when every character of `s` is whitespace. */
  lemma StripEmpty(s: string)
    ensures Strip(s) == "" <==> AllSpace(s)
  {
    StripLeftEmpty(s);
    var l := StripLeft(s);
    if l != "" {
      StripLeftStopsAtText(s);
      StripRightKeepsNonEmpty(l);
    }
  }

  lemma {:induction false} StripLeftStopsAtText(s: string)
    ensures StripLeft(s) != "" ==> !IsSpace(StripLeft(s)[0])
    decreases |s|
  {
    if |s| > 0 && IsSpace(s[0]) {
      StripLeftStopsAtText(s[1..]);
    }
  }

  /** A line followed by the separator contributes exactly one piece. */
  lemma SplitLine(line: string, rest: string, sep: char)
    requires FreeOf(line, sep)
    ensures Split(line + [sep] + rest, sep) == [line] + Split(rest, sep)
  {
    SplitAppend(line, rest, sep);
    SplitFree(line, sep);
  }

  /** Three separator-free lines in front of a block: the block's own lines follow them. */
  lemma ThreeLines(a: string, b: string, c: string, block: string, sep: char)
    requires FreeOf(a, sep) && FreeOf(b, sep) && FreeOf(c, sep)
    ensures Split(a + [sep] + (b + [sep] + (c + [sep] + block)), sep) == [a, b, c] + Split(block, sep)
  {
    var tail2 := c + [sep] + block;
    var tail1 := b + [sep] + tail2;
    SplitLine(c, block, sep);
    SplitLine(b, tail2, sep);
    SplitLine(a, tail1, sep);
  }
}
