// The parts of Go's `strings`, `bufio` and `fmt` packages that the program
// relies on, over Dafny strings (sequences of Unicode characters).

module Strings {

  /** Go's `unicode.IsSpace`: the ASCII white space characters, U+0085,
      U+00A0 and the remaining characters of the Unicode White_Space property. */
  predicate IsSpace(c: char) {
    c == ' ' || c == '\t' || c == '\n' || c == '\U{000B}' || c == '\U{000C}' || c == '\r'
    || c == '\U{0085}' || c == '\U{00A0}' || c == '\U{1680}'
    || ('\U{2000}' <= c <= '\U{200A}')
    || c == '\U{2028}' || c == '\U{2029}' || c == '\U{202F}' || c == '\U{205F}' || c == '\U{3000}'
  }

  /** Neither starts nor ends with white space. */
  predicate Trimmed(s: string) {
    s == [] || (!IsSpace(s[0]) && !IsSpace(s[|s| - 1]))
  }

  function TrimLeftSpace(s: string): string {
    if s != [] && IsSpace(s[0]) then TrimLeftSpace(s[1..]) else s
  }

  function TrimRightSpace(s: string): string {
    if s != [] && IsSpace(s[|s| - 1]) then TrimRightSpace(s[..|s| - 1]) else s
  }

  /** Go's `strings.TrimSpace`. Its properties are the lemmas below, kept out
      of its contract so that the many places that merely carry a trimmed
      string around do not pay for them. */
  function TrimSpace(s: string): string {
    TrimRightSpace(TrimLeftSpace(s))
  }

  lemma {:induction false} TrimLeftSpaceShape(s: string)
    ensures var r := TrimLeftSpace(s);
      && |r| <= |s| && r == s[|s| - |r|..]
      && (r == [] || !IsSpace(r[0]))
      && (s == [] || !IsSpace(s[0]) ==> r == s)
  {
    if s != [] && IsSpace(s[0]) {
      TrimLeftSpaceShape(s[1..]);
    }
  }

  lemma {:induction false} TrimRightSpaceShape(s: string)
    ensures var r := TrimRightSpace(s);
      && |r| <= |s| && r == s[..|r|]
      && (r == [] || !IsSpace(r[|r| - 1]))
      && (s == [] || !IsSpace(s[|s| - 1]) ==> r == s)
  {
    if s != [] && IsSpace(s[|s| - 1]) {
      TrimRightSpaceShape(s[..|s| - 1]);
    }
  }

  /** The result of `TrimSpace` is trimmed, no longer than its input, and a
      trimmed string is left as it is. */
  lemma TrimSpaceTrims(s: string)
    ensures Trimmed(TrimSpace(s))
    ensures |TrimSpace(s)| <= |s|
    ensures Trimmed(s) ==> TrimSpace(s) == s
  {
    var l := TrimLeftSpace(s);
    var r := TrimRightSpace(l);
    TrimLeftSpaceShape(s);
    TrimRightSpaceShape(l);
    assert r != [] ==> r[0] == l[0];
  }

  lemma TrimSpaceIdempotent(s: string)
    ensures TrimSpace(TrimSpace(s)) == TrimSpace(s)
  {
    TrimSpaceTrims(s);
    TrimSpaceTrims(TrimSpace(s));
  }

  /** A line feed that can only stand at the very end of `s` does not
      survive `TrimSpace`. */
  lemma {:induction false} TrimSpaceDropsFinalNewline(s: string)
    requires forall i :: 0 <= i < |s| - 1 ==> s[i] != '\n'
    ensures '\n' !in TrimSpace(s)
  {
    var l := TrimLeftSpace(s);
    var r := TrimRightSpace(l);
    TrimLeftSpaceShape(s);
    TrimRightSpaceShape(l);
    forall i | 0 <= i < |r|
      ensures r[i] != '\n'
    {
      assert r[i] == l[i] == s[|s| - |l| + i];
      if i == |r| - 1 {
        assert !IsSpace(r[i]);
      }
    }
  }

  /** Appending a line feed to a trimmed string is undone by `TrimSpace`. */
  lemma TrimSpaceOfLine(s: string)
    requires Trimmed(s)
    ensures TrimSpace(s + "\n") == s
  {
    var t := s + "\n";
    if s == [] {
      assert TrimLeftSpace(t) == TrimLeftSpace(t[1..]);
    } else {
      assert TrimLeftSpace(t) == t;
      assert t[..|t| - 1] == s;
      assert TrimRightSpace(t) == TrimRightSpace(s);
      TrimRightSpaceShape(s);
    }
  }

  predicate HasPrefix(s: string, p: string) {
    |p| <= |s| && s[..|p|] == p
  }

  predicate HasSuffix(s: string, p: string) {
    |p| <= |s| && s[|s| - |p|..] == p
  }

  /** Go's `strings.TrimPrefix`. */
  function TrimPrefix(s: string, p: string): (r: string)
    ensures HasPrefix(s, p) ==> p + r == s
    ensures !HasPrefix(s, p) ==> r == s
  {
    if HasPrefix(s, p) then s[|p|..] else s
  }

  /** `sub` occurs in `s` starting at `i`. */
  predicate OccursAt(s: string, sub: string, i: int) {
    0 <= i && i + |sub| <= |s| && s[i..i + |sub|] == sub
  }

  function IndexFrom(s: string, sub: string, i: nat): (r: int)
    requires i <= |s|
    ensures r == -1 || (i <= r && OccursAt(s, sub, r))
    ensures forall j :: i <= j && (r == -1 || j < r) ==> !OccursAt(s, sub, j)
    decreases |s| - i
  {
    if OccursAt(s, sub, i) then i
    else if i == |s| then -1
    else IndexFrom(s, sub, i + 1)
  }

  /** Go's `strings.Index`: the first position at which `sub` occurs in `s`,
      or -1 when it does not occur. */
  function Index(s: string, sub: string): (r: int)
    ensures r == -1 <==> forall j :: !OccursAt(s, sub, j)
    ensures r != -1 ==> OccursAt(s, sub, r) && forall j :: 0 <= j < r ==> !OccursAt(s, sub, j)
  {
    IndexFrom(s, sub, 0)
  }

  /** The first non-empty string of `xs`, or "" when there is none: the value
      a "set it only while it is still empty" rule ends with. */
  function FirstNonEmpty(xs: seq<string>): (r: string)
    ensures r == "" <==> forall i :: 0 <= i < |xs| ==> xs[i] == ""
    ensures r != "" ==> exists i :: 0 <= i < |xs| && xs[i] == r && forall j :: 0 <= j < i ==> xs[j] == ""
  {
    if xs == [] then ""
    else
      var init := xs[..|xs| - 1];
      var f := FirstNonEmpty(init);
      assert forall i :: 0 <= i < |init| ==> init[i] == xs[i];
      if f != "" then f else xs[|xs| - 1]
  }

  /** One more candidate only matters while none was non-empty. */
  lemma FirstNonEmptySnoc(xs: seq<string>, x: string)
    ensures FirstNonEmpty(xs + [x]) == if FirstNonEmpty(xs) != "" then FirstNonEmpty(xs) else x
  {
    assert (xs + [x])[..|xs|] == xs;
  }

  /** Re-brackets a concatenation; used by the string-building loops, where
      the solver would otherwise have to rediscover it through extensionality. */
  lemma AppendAssoc<T>(a: seq<T>, b: seq<T>, c: seq<T>)
    ensures a + b + c == a + (b + c)
  {
  }

  /** The two halves of a concatenation are recovered by slicing it. */
  lemma AppendSlices<T>(a: seq<T>, b: seq<T>)
    ensures (a + b)[..|a|] == a && (a + b)[|a|..] == b
  {
  }

  /** The concatenation of a sequence of strings. */
  function Flatten(ss: seq<string>): string {
    if ss == [] then "" else ss[0] + Flatten(ss[1..])
  }

  lemma {:induction false} FlattenAppend(a: seq<string>, b: seq<string>)
    ensures Flatten(a + b) == Flatten(a) + Flatten(b)
  {
    if a == [] {
      assert a + b == b;
    } else {
      assert (a + b)[1..] == a[1..] + b;
      FlattenAppend(a[1..], b);
    }
  }

  /** The pieces `ps` joined with `sep` between them (Go's `strings.Join`). */
  function JoinWith(ps: seq<string>, sep: char): string {
    if |ps| == 0 then "" else if |ps| == 1 then ps[0] else ps[0] + [sep] + JoinWith(ps[1..], sep)
  }

  /** Go's `strings.Split` with a one-character separator: the pieces
      between separators, never an empty list, and joining them back
      gives the input. */
  function Split(s: string, sep: char): (r: seq<string>)
    ensures |r| >= 1
    ensures forall i :: 0 <= i < |r| ==> sep !in r[i]
    ensures JoinWith(r, sep) == s
  {
    if s == [] then [""]
    else
      var rest := Split(s[1..], sep);
      if s[0] == sep then [""] + rest
      else
        var r := [[s[0]] + rest[0]] + rest[1..];
        assert r[1..] == rest[1..];
        r
  }

  /** Splitting undoes joining when no piece holds the separator. */
  lemma {:induction false} SplitJoin(ps: seq<string>, sep: char)
    requires |ps| >= 1
    requires forall i :: 0 <= i < |ps| ==> sep !in ps[i]
    ensures Split(JoinWith(ps, sep), sep) == ps
  {
    if |ps| == 1 {
      SplitOfPiece(ps[0], [], sep);
    } else {
      SplitJoin(ps[1..], sep);
      SplitOfPiece(ps[0], ps[1..], sep);
    }
  }

  /** A separator-free piece in front of a separator and a joined tail. */
  lemma {:induction false} SplitOfPiece(p: string, tail: seq<string>, sep: char)
    requires sep !in p
    requires tail != [] ==> Split(JoinWith(tail, sep), sep) == tail
    ensures Split(if tail == [] then p else p + [sep] + JoinWith(tail, sep), sep) == [p] + tail
  {
    if p == [] {
      if tail != [] {
        SplitAfterSeparator(JoinWith(tail, sep), sep);
      }
    } else {
      SplitOfPiece(p[1..], tail, sep);
      var s' := if tail == [] then p[1..] else p[1..] + [sep] + JoinWith(tail, sep);
      SplitOfCons(p, s', sep);
      assert (if tail == [] then p else p + [sep] + JoinWith(tail, sep)) == [p[0]] + s';
    }
  }

  lemma SplitAfterSeparator(s: string, sep: char)
    ensures Split([sep] + s, sep) == [""] + Split(s, sep)
  {
    assert ([sep] + s)[1..] == s;
  }

  /** A piece's first character joins the first piece of the rest. */
  lemma SplitOfCons(p: string, s: string, sep: char)
    requires p != [] && p[0] != sep
    requires Split(s, sep)[0] == p[1..]
    ensures Split([p[0]] + s, sep) == [p] + Split(s, sep)[1..]
  {
    assert ([p[0]] + s)[1..] == s;
    assert [p[0]] + p[1..] == p;
  }

  /** `bufio.Reader.ReadBytes('\n')` applied until the input is exhausted:
      the chunks of `s`, none of them empty, that concatenate back to `s`. */
  function Lines(s: string): (r: seq<string>)
    ensures Flatten(r) == s
    ensures forall i :: 0 <= i < |r| ==> r[i] != []
  {
    if s == [] then []
    else if s[0] == '\n' then
      var rest := Lines(s[1..]);
      assert s == "\n" + s[1..];
      assert (["\n"] + rest)[1..] == rest;
      ["\n"] + rest
    else
      var rest := Lines(s[1..]);
      if rest == [] then
        assert s == [s[0]];
        [[s[0]]]
      else
        var r := [[s[0]] + rest[0]] + rest[1..];
        assert r[1..] == rest[1..];
        assert Flatten(rest) == rest[0] + Flatten(rest[1..]);
        r
  }

  /** Every chunk ends at its first line feed: a line feed stands only at
      the end of a chunk, and every chunk but the last has one. */
  lemma {:induction false} LinesShape(s: string)
    ensures forall i, j :: 0 <= i < |Lines(s)| && 0 <= j < |Lines(s)[i]| - 1 ==> Lines(s)[i][j] != '\n'
    ensures forall i :: 0 <= i < |Lines(s)| - 1 ==> Lines(s)[i][|Lines(s)[i]| - 1] == '\n'
  {
    if s != [] {
      LinesShape(s[1..]);
      var rest := Lines(s[1..]);
      var r := Lines(s);
      if s[0] == '\n' {
        assert r == ["\n"] + rest;
        assert forall i :: 1 <= i < |r| ==> r[i] == rest[i - 1];
      } else if rest != [] {
        assert r == [[s[0]] + rest[0]] + rest[1..];
        assert forall i :: 1 <= i < |r| ==> r[i] == rest[i];
        assert forall j :: 1 <= j < |r[0]| ==> r[0][j] == rest[0][j - 1];
      }
    }
  }

  /** `s` is empty or its last line is complete. */
  predicate EndsWithNewline(s: string) {
    s == [] || s[|s| - 1] == '\n'
  }

  lemma {:induction false} LinesOfLine(line: string)
    requires '\n' !in line
    ensures Lines(line + "\n") == [line + "\n"]
  {
    var t := line + "\n";
    if line == [] {
      assert t == "\n";
      assert t[0] == '\n' && t[1..] == [];
      assert Lines(t[1..]) == [];
      assert Lines(t) == ["\n"] + Lines(t[1..]);
    } else {
      LinesOfLine(line[1..]);
      assert t[1..] == line[1..] + "\n";
      assert [line[0]] + (line[1..] + "\n") == t;
    }
  }

  /** Appending one complete line to a file whose last line is complete
      adds exactly that line to what `ReadBytes` returns. */
  lemma {:induction false} LinesAppend(s: string, line: string)
    requires EndsWithNewline(s)
    requires '\n' !in line
    ensures Lines(s + line + "\n") == Lines(s) + [line + "\n"]
  {
    var l := line + "\n";
    if s == [] {
      assert s + line + "\n" == l;
      LinesOfLine(line);
    } else {
      var t := s + line + "\n";
      assert t[0] == s[0];
      assert t[1..] == s[1..] + line + "\n";
      LinesAppend(s[1..], line);
      var rest := Lines(s[1..]);
      assert Lines(t[1..]) == rest + [l];
      if s[0] == '\n' {
        assert Lines(t) == ["\n"] + (rest + [l]);
        assert Lines(s) == ["\n"] + rest;
      } else {
        assert s[1..] != [];
        assert rest != [];
        assert (rest + [l])[0] == rest[0];
        assert (rest + [l])[1..] == rest[1..] + [l];
        assert Lines(t) == [[s[0]] + rest[0]] + (rest[1..] + [l]);
        assert Lines(s) == [[s[0]] + rest[0]] + rest[1..];
      }
    }
  }

  /** A line whose last line is not complete is continued by the next
      append: the two are read back as one line. */
  lemma TornLineIsGlued(torn: string, line: string)
    requires torn != [] && '\n' !in torn && '\n' !in line
    ensures Lines(torn + line + "\n") == [torn + line + "\n"]
  {
    assert torn + line + "\n" == (torn + line) + "\n";
    LinesOfLine(torn + line);
  }

  function DigitChar(d: nat): (c: char)
    requires d < 10
    ensures '0' <= c <= '9'
  {
    "0123456789"[d]
  }

  /** `fmt.Sprintf("%v", n)` for a natural number: its decimal digits. */
  function Decimal(n: nat): (r: string)
    ensures r != []
    ensures forall i :: 0 <= i < |r| ==> '0' <= r[i] <= '9'
  {
    if n < 10 then [DigitChar(n)] else Decimal(n / 10) + [DigitChar(n % 10)]
  }

  /** The value of a string of decimal digits. */
  function DecimalValue(s: string): nat
    requires forall i :: 0 <= i < |s| ==> '0' <= s[i] <= '9'
  {
    if s == [] then 0 else 10 * DecimalValue(s[..|s| - 1]) + (s[|s| - 1] as int - '0' as int)
  }

  lemma {:induction false} DecimalRoundTrip(n: nat)
    ensures DecimalValue(Decimal(n)) == n
  {
    var r := Decimal(n);
    if n >= 10 {
      DecimalRoundTrip(n / 10);
      assert r[..|r| - 1] == Decimal(n / 10);
    }
  }
}
