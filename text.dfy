/** String operations of the JavaScript runtime that the upload pipeline relies
    on: `split` with a one-character separator, `join`, `trim()` emptiness,
    `toLowerCase`, `||` on strings, and decimal rendering of a number inside a
    template literal. */
module Text {

  function Last<T>(s: seq<T>): T
    requires |s| > 0
  {
    s[|s| - 1]
  }

  function DropLast<T>(s: seq<T>): seq<T>
    requires |s| > 0
  {
    s[..|s| - 1]
  }

  /** Concatenation of a sequence of strings, in order. */
  function Concat(parts: seq<string>): string
  {
    if parts == [] then "" else Concat(DropLast(parts)) + Last(parts)
  }

  /** Number of occurrences of `c` in `s`. */
  function Occurrences(s: string, c: char): nat
  {
    if s == [] then 0 else (if s[0] == c then 1 else 0) + Occurrences(s[1..], c)
  }

  /** The pieces of `s` between occurrences of `sep`, as `s.split(sep)` returns
      them for a one-character separator: never empty, one piece more than
      there are separators, and no piece holds the separator. */
  function Split(s: string, sep: char): (pieces: seq<string>)
    ensures |pieces| == Occurrences(s, sep) + 1
    ensures forall i :: 0 <= i < |pieces| ==> sep !in pieces[i]
  {
    if s == [] then [""]
    else
      var rest := Split(s[1..], sep);
      if s[0] == sep then [""] + rest
      else [[s[0]] + rest[0]] + rest[1..]
  }

  /** `pieces.join(sep)`. */
  function Join(pieces: seq<string>, sep: char): string
  {
    if pieces == [] then ""
    else if |pieces| == 1 then pieces[0]
    else pieces[0] + [sep] + Join(pieces[1..], sep)
  }

  /** Splitting `a + b` splits `a` and `b` separately and glues the last piece
      of `a` to the first piece of `b`. */
  function Glue(xs: seq<string>, ys: seq<string>): seq<string>
    requires |xs| > 0 && |ys| > 0
  {
    DropLast(xs) + [Last(xs) + ys[0]] + ys[1..]
  }

  /** Prefixing a character that is not the separator extends the first piece. */
  function Cons(c: char, pieces: seq<string>): seq<string>
    requires |pieces| > 0
  {
    [[c] + pieces[0]] + pieces[1..]
  }

  lemma ConsGlue(c: char, xs: seq<string>, ys: seq<string>)
    requires |xs| > 0 && |ys| > 0
    ensures Cons(c, Glue(xs, ys)) == Glue(Cons(c, xs), ys)
  {
    assert [c] + (xs[0] + ys[0]) == ([c] + xs[0]) + ys[0];
    if |xs| == 1 {
      assert Glue(xs, ys) == [xs[0] + ys[0]] + ys[1..];
      assert Cons(c, xs) == [[c] + xs[0]];
    } else {
      var g := Glue(xs, ys);
      assert g[0] == xs[0];
      assert g[1..] == xs[1..|xs| - 1] + [Last(xs) + ys[0]] + ys[1..];
      var cx := Cons(c, xs);
      assert DropLast(cx) == [[c] + xs[0]] + xs[1..|xs| - 1];
      assert Last(cx) == Last(xs);
    }
  }

  lemma SplitSeparatorFirst(s: string, sep: char)
    requires s != [] && s[0] == sep
    ensures Split(s, sep) == [""] + Split(s[1..], sep)
  {
  }

  lemma SplitOtherFirst(s: string, sep: char)
    requires s != [] && s[0] != sep
    ensures Split(s, sep) == Cons(s[0], Split(s[1..], sep))
  {
  }

  lemma PrefixGlue(xs: seq<string>, ys: seq<string>)
    requires |xs| > 0 && |ys| > 0
    ensures [""] + Glue(xs, ys) == Glue([""] + xs, ys)
  {
    assert DropLast([""] + xs) == [""] + DropLast(xs);
    assert Last([""] + xs) == Last(xs);
  }

  /** One step of SplitAppend: from the split of `a[1..] + b` to that of `a + b`. */
  lemma SplitAppendStep(a: string, b: string, sep: char)
    requires a != []
    requires Split(a[1..] + b, sep) == Glue(Split(a[1..], sep), Split(b, sep))
    ensures Split(a + b, sep) == Glue(Split(a, sep), Split(b, sep))
  {
    var x, y := Split(a[1..], sep), Split(b, sep);
    var ab := a + b;
    assert ab[1..] == a[1..] + b;
    if a[0] == sep {
      SplitSeparatorFirst(ab, sep);
      SplitSeparatorFirst(a, sep);
      PrefixGlue(x, y);
    } else {
      SplitOtherFirst(ab, sep);
      SplitOtherFirst(a, sep);
      ConsGlue(a[0], x, y);
    }
  }

  /** Splitting a concatenation: the basis of line framing across chunks. */
  lemma {:induction false} SplitAppend(a: string, b: string, sep: char)
    ensures Split(a + b, sep) == Glue(Split(a, sep), Split(b, sep))
  {
    if a == [] {
      var y := Split(b, sep);
      assert a + b == b;
      assert Split(a, sep) == [""];
      assert "" + y[0] == y[0];
      assert Glue([""], y) == [y[0]] + y[1..];
    } else {
      SplitAppend(a[1..], b, sep);
      SplitAppendStep(a, b, sep);
    }
  }

  /** A string without the separator is a single piece. */
  lemma {:induction false} SplitWithoutSeparator(s: string, sep: char)
    requires sep !in s
    ensures Split(s, sep) == [s]
  {
    if s != [] {
      assert sep !in s[1..] by {
        forall i | 0 <= i < |s[1..]| ensures s[1..][i] != sep {
          assert s[1..][i] == s[i + 1];
        }
      }
      SplitWithoutSeparator(s[1..], sep);
      assert [s[0]] + s[1..] == s;
    }
  }

  /** Joining the pieces of a split gives the original string back. */
  lemma {:induction false} JoinSplit(s: string, sep: char)
    ensures Join(Split(s, sep), sep) == s
  {
    if s != [] {
      var rest := Split(s[1..], sep);
      JoinSplit(s[1..], sep);
      if s[0] == sep {
        assert Split(s, sep) == [""] + rest;
        assert ([""] + rest)[1..] == rest;
        assert s == [sep] + s[1..];
      } else {
        var pieces := Split(s, sep);
        assert pieces == [[s[0]] + rest[0]] + rest[1..];
        if |rest| == 1 {
          assert pieces == [[s[0]] + rest[0]];
          assert s == [s[0]] + s[1..];
        } else {
          assert pieces[1..] == rest[1..];
          assert Join(rest, sep) == rest[0] + [sep] + Join(rest[1..], sep);
          assert s == [s[0]] + s[1..];
        }
      }
    }
  }

  lemma GlueAfterSeparator(x: string, ys: seq<string>)
    ensures Glue([x], [""] + ys) == [x] + ys
  {
    assert x + "" == x;
  }

  /** A separator followed by the join of `rest` splits into an empty piece
      and the split of the join. */
  lemma SplitAfterSeparator(rest: seq<string>, sep: char)
    ensures Split([sep] + Join(rest, sep), sep) == [""] + Split(Join(rest, sep), sep)
  {
    var tail := [sep] + Join(rest, sep);
    assert tail[1..] == Join(rest, sep);
    SplitSeparatorFirst(tail, sep);
  }

  /** Splitting a join of separator-free pieces gives the pieces back. */
  lemma {:induction false} SplitJoin(pieces: seq<string>, sep: char)
    requires |pieces| > 0
    requires forall i :: 0 <= i < |pieces| ==> sep !in pieces[i]
    ensures Split(Join(pieces, sep), sep) == pieces
  {
    SplitWithoutSeparator(pieces[0], sep);
    if |pieces| > 1 {
      var rest := pieces[1..];
      assert forall i :: 0 <= i < |rest| ==> sep !in rest[i] by {
        forall i | 0 <= i < |rest| ensures sep !in rest[i] {
          assert rest[i] == pieces[i + 1];
        }
      }
      SplitJoin(rest, sep);
      var tail := [sep] + Join(rest, sep);
      assert Join(pieces, sep) == pieces[0] + tail;
      SplitAppend(pieces[0], tail, sep);
      SplitAfterSeparator(rest, sep);
      GlueAfterSeparator(pieces[0], rest);
      assert [pieces[0]] + rest == pieces;
    }
  }

  /** The lines of `s` that a newline terminates, in order. */
  function CompleteLines(s: string): seq<string>
  {
    DropLast(Split(s, '\n'))
  }

  /** The text after the last newline of `s` (all of `s` if it has none). */
  function Remainder(s: string): string
  {
    Last(Split(s, '\n'))
  }

  lemma DropLastAppend<T>(a: seq<T>, b: seq<T>)
    requires |b| > 0
    ensures DropLast(a + b) == a + DropLast(b)
    ensures Last(a + b) == Last(b)
  {
    assert (a + b)[..|a + b| - 1] == a + b[..|b| - 1];
  }

  lemma GlueAtLast(xs: seq<string>, ys: seq<string>)
    requires |xs| > 0 && |ys| > 0
    ensures Glue(xs, ys) == DropLast(xs) + Glue([Last(xs)], ys)
  {
    assert DropLast([Last(xs)]) == [];
    assert Glue([Last(xs)], ys) == [Last(xs) + ys[0]] + ys[1..];
  }

  /** The remainder never holds a newline. */
  lemma RemainderHasNoNewline(s: string)
    ensures '\n' !in Remainder(s)
  {
    var x := Split(s, '\n');
    assert '\n' !in x[|x| - 1];
  }

  /** Feeding more text after the remainder of `s` yields exactly the lines
      that feeding it after all of `s` adds, and the same new remainder. */
  lemma FeedAfterRemainder(s: string, more: string)
    ensures CompleteLines(s + more) == CompleteLines(s) + CompleteLines(Remainder(s) + more)
    ensures Remainder(s + more) == Remainder(Remainder(s) + more)
  {
    var x, y := Split(s, '\n'), Split(more, '\n');
    var r := Remainder(s);
    RemainderHasNoNewline(s);
    SplitWithoutSeparator(r, '\n');
    SplitAppend(r, more, '\n');
    SplitAppend(s, more, '\n');
    GlueAtLast(x, y);
    var tail := Split(r + more, '\n');
    assert Split(s + more, '\n') == DropLast(x) + tail;
    DropLastAppend(DropLast(x), tail);
  }

  /** A string that ends in the separator has an empty last piece. */
  lemma SplitEndsEmpty(s: string, sep: char)
    requires s != [] && s[|s| - 1] == sep
    ensures Last(Split(s, sep)) == ""
  {
    var init := s[..|s| - 1];
    assert init + [sep] == s;
    SplitAppend(init, [sep], sep);
    assert [sep][1..] == "";
    assert Split([sep], sep) == ["", ""];
  }

  lemma GlueOntoEmpty(xs: seq<string>, y: string)
    requires |xs| > 0 && Last(xs) == ""
    ensures DropLast(Glue(xs, [y])) == DropLast(xs)
    ensures Last(Glue(xs, [y])) == y
  {
    assert "" + y == y;
    assert Glue(xs, [y]) == DropLast(xs) + [y];
  }

  /** A newline-terminated text followed by a partial line: the partial line
      is not among the complete lines. */
  lemma TrailingPartialLine(s: string, partial: string)
    requires s == [] || s[|s| - 1] == '\n'
    requires '\n' !in partial
    ensures CompleteLines(s + partial) == CompleteLines(s)
    ensures Remainder(s + partial) == partial
  {
    SplitWithoutSeparator(partial, '\n');
    if s == [] {
      assert s + partial == partial;
    } else {
      SplitEndsEmpty(s, '\n');
      SplitAppend(s, partial, '\n');
      GlueOntoEmpty(Split(s, '\n'), partial);
    }
  }

  /** The last piece of a split is the text after the last separator. */
  lemma LastPieceAfterSeparator(prefix: string, tail: string, sep: char)
    requires sep !in tail
    ensures Last(Split(prefix + [sep] + tail, sep)) == tail
  {
    var head := prefix + [sep];
    SplitEndsEmpty(head, sep);
    SplitWithoutSeparator(tail, sep);
    SplitAppend(head, tail, sep);
    GlueOntoEmpty(Split(head, sep), tail);
  }

  /** JavaScript's `trim` whitespace: the WhiteSpace and LineTerminator code
      points of ECMAScript. */
  predicate IsWhitespace(c: char)
  {
    c == ' ' || c == '\t' || c == '\n' || c == '\r' || c == '\U{000B}' || c == '\U{000C}'
    || c == '\U{00A0}' || c == '\U{1680}' || ('\U{2000}' <= c <= '\U{200A}')
    || c == '\U{2028}' || c == '\U{2029}' || c == '\U{202F}' || c == '\U{205F}'
    || c == '\U{3000}' || c == '\U{FEFF}'
  }

  /** `!s.trim()`: `s` is empty or holds only whitespace. */
  predicate IsBlank(s: string)
  {
    forall i :: 0 <= i < |s| ==> IsWhitespace(s[i])
  }

  /** `s || fallback` for a string: the empty string is falsy. */
  function OrElse(s: string, fallback: string): (r: string)
    ensures r != "" <== fallback != ""
    ensures s != "" ==> r == s
    ensures s == "" ==> r == fallback
  {
    if s == "" then fallback else s
  }

  function StartsWith(s: string, prefix: string): bool
  {
    |prefix| <= |s| && s[..|prefix|] == prefix
  }

  function ToLowerChar(c: char): char
  {
    if 'A' <= c <= 'Z' then (c as int + 32) as char else c
  }

  /** `s.toLowerCase()` on the ASCII letters. */
  function ToLower(s: string): (r: string)
    ensures |r| == |s|
    ensures forall i :: 0 <= i < |s| ==> r[i] == ToLowerChar(s[i])
  {
    if s == [] then [] else [ToLowerChar(s[0])] + ToLower(s[1..])
  }

  lemma ToLowerIdempotent(s: string)
    ensures ToLower(ToLower(s)) == ToLower(s)
  {
  }

  function DigitChar(d: nat): char
    requires d < 10
  {
    ('0' as int + d) as char
  }

  /** Decimal rendering of `n`, as a template literal prints a number. */
  function NatToString(n: nat): (r: string)
    ensures |r| > 0
    ensures forall i :: 0 <= i < |r| ==> '0' <= r[i] <= '9'
    ensures r[0] == '0' <==> n == 0
    ensures |r| > 1 ==> r[0] != '0'
  {
    if n < 10 then [DigitChar(n)] else NatToString(n / 10) + [DigitChar(n % 10)]
  }

  /** The inverse of NatToString. */
  function DecimalValue(s: string): int
  {
    if s == [] then 0 else 10 * DecimalValue(DropLast(s)) + (Last(s) as int - '0' as int)
  }

  lemma {:induction false} DecimalRoundTrip(n: nat)
    ensures DecimalValue(NatToString(n)) == n
  {
    if n >= 10 {
      DecimalRoundTrip(n / 10);
      var r := NatToString(n);
      assert DropLast(r) == NatToString(n / 10);
    }
  }
}
