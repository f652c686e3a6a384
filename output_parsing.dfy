/**
 * How the evaluator turns the captured standard output of a harness run into
 * lines: every carriage return is erased in place, the text is read line by
 * line as `std::getline` does, and empty lines are dropped.
 */
module OutputParsing {

  /** `s` with every '\r' removed and every other character kept, in order. */
  function StripCR(s: string): (r: string)
    ensures |r| <= |s|
    ensures '\r' !in r
    ensures forall c :: c in r ==> c in s
  {
    if s == [] then []
    else
      var init := StripCR(s[..|s| - 1]);
      if s[|s| - 1] == '\r' then init else init + [s[|s| - 1]]
  }

  /** The index of the first '\n' in `s`, or `|s|` when there is none. */
  function LineEnd(s: string): (k: nat)
    ensures k <= |s|
  {
    if s == [] || s[0] == '\n' then 0 else 1 + LineEnd(s[1..])
  }

  /** No '\n' comes before `LineEnd(s)`, and one stands at it unless it is the end. */
  lemma {:induction false} LineEndIsFirstNewline(s: string)
    ensures forall j :: 0 <= j < LineEnd(s) ==> s[j] != '\n'
    ensures LineEnd(s) < |s| ==> s[LineEnd(s)] == '\n'
  {
    if s != [] && s[0] != '\n' {
      LineEndIsFirstNewline(s[1..]);
    }
  }

  /**
   * The lines `std::getline` extracts from `s`: the pieces between '\n's, where a
   * final '\n' does not open one more (empty) line.
   */
  function Lines(s: string): (ls: seq<string>)
    ensures ls == [] <==> s == []
    ensures |ls| <= |s|
    decreases |s|
  {
    if s == [] then []
    else
      var k := LineEnd(s);
      if k == |s| then [s] else [s[..k]] + Lines(s[k + 1..])
  }

  /** No line holds a '\n', and every character of every line comes from the text. */
  lemma {:induction false} LinesChars(s: string)
    ensures forall l :: l in Lines(s) ==> '\n' !in l
    ensures forall l, c :: l in Lines(s) && c in l ==> c in s
    decreases |s|
  {
    if s != [] {
      var k := LineEnd(s);
      LineEndIsFirstNewline(s);
      if k < |s| {
        var t := s[k + 1..];
        LinesChars(t);
        assert forall c :: c in t ==> c in s;
        assert forall c :: c in s[..k] ==> c in s;
      }
    }
  }

  /** The inverse of `Lines`: each line followed by '\n'. */
  function Unlines(ls: seq<string>): string {
    if ls == [] then [] else ls[0] + "\n" + Unlines(ls[1..])
  }

  /** `ls` without its empty strings, the rest in order. */
  function NonEmpty(ls: seq<string>): (r: seq<string>)
    ensures |r| <= |ls|
    ensures forall i :: 0 <= i < |r| ==> r[i] != []
  {
    if ls == [] then []
    else (if ls[0] == [] then [] else [ls[0]]) + NonEmpty(ls[1..])
  }

  /** The lines the evaluator compares with the expected outputs. */
  function OutputLines(out: string): (ls: seq<string>)
    ensures forall i :: 0 <= i < |ls| ==> ls[i] != [] && '\n' !in ls[i] && '\r' !in ls[i]
  {
    LinesChars(StripCR(out));
    NonEmptyFrom(Lines(StripCR(out)));
    NonEmpty(Lines(StripCR(out)))
  }

  /** What `NonEmpty` keeps comes from its argument. */
  lemma {:induction false} NonEmptyFrom(ls: seq<string>)
    ensures forall x :: x in NonEmpty(ls) ==> x in ls
  {
    if ls != [] {
      NonEmptyFrom(ls[1..]);
    }
  }

  /** Erases every '\r' from the first `a.Length` characters in place (the erase/remove idiom); the text is `a[..n]` afterwards. */
  method EraseCarriageReturns(a: array<char>) returns (n: nat)
    modifies a
    ensures n <= a.Length
    ensures a[..n] == StripCR(old(a[..]))
  {
    ghost var s := a[..];
    n := 0;
    var i := 0;
    while i < a.Length
      invariant n <= i <= a.Length
      invariant a[..n] == StripCR(s[..i])
      invariant a[i..] == s[i..]
    {
      assert s[..i + 1][..i] == s[..i];
      var c := a[i];
      assert c == s[i];
      if c != '\r' {
        a[n] := c;
        assert a[..n + 1] == StripCR(s[..i]) + [c];
        n := n + 1;
      }
      assert a[i + 1..] == s[i + 1..];
      i := i + 1;
    }
    assert s[..a.Length] == s;
  }

  /** The `while (getline(ss, line)) if (!line.empty()) lines.push_back(line);` loop. */
  method ReadLines(out: string) returns (lines: seq<string>)
    ensures lines == NonEmpty(Lines(out))
  {
    ghost var want := NonEmpty(Lines(out));
    lines := [];
    var pos := 0;
    assert out[pos..] == out;
    while pos < |out|
      invariant 0 <= pos <= |out|
      invariant want == lines + NonEmpty(Lines(out[pos..]))
      decreases |out| - pos
    {
      var end := pos;
      while end < |out| && out[end] != '\n'
        invariant pos <= end <= |out|
        invariant forall j :: pos <= j < end ==> out[j] != '\n'
      {
        end := end + 1;
      }
      var line := out[pos..end];
      var next := if end < |out| then end + 1 else |out|;
      ReadStep(out, pos, end, next);
      ghost var rest := NonEmpty(Lines(out[next..]));
      assert want == lines + ((if line == [] then [] else [line]) + rest);
      if line != [] {
        assert lines + ([line] + rest) == (lines + [line]) + rest;
        lines := lines + [line];
      } else {
        assert [] + rest == rest;
      }
      pos := next;
    }
    assert out[pos..] == [];
  }

  /** The lines kept from `out[pos..]` are the one ending at `end`, if non-empty, then those from `next`. */
  lemma ReadStep(out: string, pos: nat, end: nat, next: nat)
    requires pos < |out| && pos <= end <= |out|
    requires forall j :: pos <= j < end ==> out[j] != '\n'
    requires end == |out| || out[end] == '\n'
    requires next == if end < |out| then end + 1 else |out|
    ensures NonEmpty(Lines(out[pos..])) ==
      (if out[pos..end] == [] then [] else [out[pos..end]]) + NonEmpty(Lines(out[next..]))
  {
    var line := out[pos..end];
    LinesStep(out, pos, end, next);
    NonEmptyAppend([line], Lines(out[next..]));
    assert [line][1..] == [];
  }

  /** `LineEnd` is the position of the first '\n'. */
  lemma {:induction false} LineEndIs(s: string, k: nat)
    requires k <= |s|
    requires forall j :: 0 <= j < k ==> s[j] != '\n'
    requires k == |s| || s[k] == '\n'
    ensures LineEnd(s) == k
  {
    if k > 0 {
      LineEndIs(s[1..], k - 1);
    }
  }

  /** One `getline` call on the text from `pos`: the line ends at `end`, reading resumes at `next`. */
  lemma LinesStep(out: string, pos: nat, end: nat, next: nat)
    requires pos < |out| && pos <= end <= |out|
    requires forall j :: pos <= j < end ==> out[j] != '\n'
    requires end == |out| || out[end] == '\n'
    requires next == if end < |out| then end + 1 else |out|
    ensures Lines(out[pos..]) == [out[pos..end]] + Lines(out[next..])
  {
    var rest := out[pos..];
    LineEndIs(rest, end - pos);
    assert rest[..end - pos] == out[pos..end];
    if end < |out| {
      assert rest[end - pos + 1..] == out[next..];
    } else {
      assert rest == out[pos..end];
      assert out[next..] == [];
    }
  }

  /** Dropping empty strings distributes over concatenation. */
  lemma {:induction false} NonEmptyAppend(a: seq<string>, b: seq<string>)
    ensures NonEmpty(a + b) == NonEmpty(a) + NonEmpty(b)
  {
    if a == [] {
      assert a + b == b;
    } else {
      var head := if a[0] == [] then [] else [a[0]];
      assert (a + b)[0] == a[0];
      assert (a + b)[1..] == a[1..] + b;
      assert NonEmpty(a + b) == head + NonEmpty(a[1..] + b);
      NonEmptyAppend(a[1..], b);
      assert NonEmpty(a) == head + NonEmpty(a[1..]);
    }
  }

  /** Lines without empty strings are kept as they are. */
  lemma {:induction false} NonEmptyKeeps(ls: seq<string>)
    requires forall i :: 0 <= i < |ls| ==> ls[i] != []
    ensures NonEmpty(ls) == ls
  {
    if ls != [] {
      NonEmptyKeeps(ls[1..]);
    }
  }

  /** Removing '\r' distributes over concatenation. */
  lemma {:induction false} StripCRAppend(a: string, b: string)
    ensures StripCR(a + b) == StripCR(a) + StripCR(b)
    decreases |b|
  {
    if b == [] {
      assert a + b == a;
    } else {
      var b' := b[..|b| - 1];
      assert (a + b)[..|a + b| - 1] == a + b';
      StripCRAppend(a, b');
    }
  }

  /** Text without '\r' is left unchanged. */
  lemma {:induction false} StripCRKeeps(s: string)
    requires '\r' !in s
    ensures StripCR(s) == s
    decreases |s|
  {
    if s != [] {
      var init := s[..|s| - 1];
      assert forall c :: c in init ==> c in s;
      StripCRKeeps(init);
    }
  }

  /** A "\r\n" line ending reads the same as "\n": `StripCR` maps the Windows form onto the Unix one. */
  lemma {:induction false} CrLfReadsAsLf(ls: seq<string>)
    requires forall i :: 0 <= i < |ls| ==> '\r' !in ls[i]
    ensures StripCR(UnlinesCrLf(ls)) == Unlines(ls)
  {
    if ls != [] {
      calc {
        StripCR(UnlinesCrLf(ls));
        StripCR(ls[0] + "\r\n" + UnlinesCrLf(ls[1..]));
        { StripCRAppend(ls[0] + "\r\n", UnlinesCrLf(ls[1..]));
          StripCRAppend(ls[0], "\r\n"); }
        StripCR(ls[0]) + StripCR("\r\n") + StripCR(UnlinesCrLf(ls[1..]));
        { StripCRKeeps(ls[0]); assert StripCR("\r\n") == "\n"; CrLfReadsAsLf(ls[1..]); }
        ls[0] + "\n" + Unlines(ls[1..]);
      }
    }
  }

  /** Each line followed by "\r\n", as a program run on Windows prints it. */
  function UnlinesCrLf(ls: seq<string>): string {
    if ls == [] then [] else ls[0] + "\r\n" + UnlinesCrLf(ls[1..])
  }

  /** Reading back lines that were written out one per line gives them back. */
  lemma {:induction false} LinesUnlines(ls: seq<string>)
    requires forall i :: 0 <= i < |ls| ==> '\n' !in ls[i]
    ensures Lines(Unlines(ls)) == ls
  {
    if ls != [] {
      LinesCons(ls[0], Unlines(ls[1..]));
      LinesUnlines(ls[1..]);
    }
  }

  /** A line without '\n' followed by '\n' is read as that line, then the rest. */
  lemma LinesCons(l: string, rest: string)
    requires '\n' !in l
    ensures Lines(l + "\n" + rest) == [l] + Lines(rest)
  {
    var s := l + "\n" + rest;
    assert forall j :: 0 <= j < |l| ==> s[j] == l[j];
    LineEndIs(s, |l|);
    assert s[..|l|] == l;
    assert s[|l| + 1..] == rest;
  }

  /** Writing out the lines read from `s` gives `s` back, with a final '\n' added if it lacked one. */
  lemma {:induction false} UnlinesLines(s: string)
    ensures Unlines(Lines(s)) == if s == [] || s[|s| - 1] == '\n' then s else s + "\n"
    decreases |s|
  {
    if s != [] {
      var k := LineEnd(s);
      LineEndIsFirstNewline(s);
      if k == |s| {
        assert Unlines(Lines(s)) == s + "\n";
      } else {
        var t := s[k + 1..];
        UnlinesLines(t);
        UnlinesSplit(s, k);
        if t != [] && t[|t| - 1] != '\n' {
          assert s[|s| - 1] == t[|t| - 1];
          assert s[..k] + "\n" + (t + "\n") == s + "\n";
        }
      }
    }
  }

  /** Unfolds `Unlines(Lines(s))` at a '\n' that ends the first line. */
  lemma UnlinesSplit(s: string, k: nat)
    requires k < |s| && k == LineEnd(s) && s[k] == '\n'
    ensures s == s[..k] + "\n" + s[k + 1..]
    ensures Unlines(Lines(s)) == s[..k] + "\n" + Unlines(Lines(s[k + 1..]))
  {
    SplitAround(s, k);
  }

  lemma SplitAround(s: string, k: nat)
    requires k < |s|
    ensures s == s[..k] + [s[k]] + s[k + 1..]
  {
    assert s[..k + 1] == s[..k] + [s[k]];
    assert s == s[..k + 1] + s[k + 1..];
  }

  /** A run that prints exactly `ls`, one non-empty line each, is read back as `ls`. */
  lemma OutputLinesOfExactOutput(ls: seq<string>)
    requires forall i :: 0 <= i < |ls| ==> ls[i] != [] && '\n' !in ls[i] && '\r' !in ls[i]
    ensures OutputLines(Unlines(ls)) == ls
    ensures OutputLines(UnlinesCrLf(ls)) == ls
  {
    UnlinesNoCR(ls);
    StripCRKeeps(Unlines(ls));
    CrLfReadsAsLf(ls);
    LinesUnlines(ls);
    NonEmptyKeeps(ls);
  }

  lemma {:induction false} UnlinesNoCR(ls: seq<string>)
    requires forall i :: 0 <= i < |ls| ==> '\r' !in ls[i]
    ensures '\r' !in Unlines(ls)
  {
    if ls != [] {
      UnlinesNoCR(ls[1..]);
    }
  }
}
