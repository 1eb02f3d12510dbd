/** Lines of captured output, and the reserved records among them (ci_contract.py:394-429, 708-790). One character is
    one byte. */
module EvidenceText {

  datatype Option<+T> = None | Some(value: T)

  type Bytes = string

  predicate Break(c: char) { c == '\n' || c == '\r' }

  predicate NoBreak(s: Bytes) { forall i :: 0 <= i < |s| ==> !Break(s[i]) }

  /** How long the first line is, with whatever ends it; a carriage return and the line feed after it end one line. */
  function FirstLine(s: Bytes): (n: nat)
    requires s != ""
    ensures 0 < n <= |s|
  {
    if s[0] == '\r' && |s| > 1 && s[1] == '\n' then 2
    else if Break(s[0]) || |s| == 1 then 1
    else 1 + FirstLine(s[1..])
  }

  /** The lines of an output, each with its end. */
  function Lines(s: Bytes): seq<Bytes>
    decreases |s|
  {
    if s == "" then [] else [s[..FirstLine(s)]] + Lines(s[FirstLine(s)..])
  }

  function Concat(lines: seq<Bytes>): Bytes { if lines == [] then "" else lines[0] + Concat(lines[1..]) }

  predicate StartsWith(line: Bytes, prefix: Bytes) { prefix <= line }

  function WithPrefix(lines: seq<Bytes>, prefix: Bytes): seq<Bytes> {
    if lines == [] then []
    else (if StartsWith(lines[0], prefix) then [lines[0]] else []) + WithPrefix(lines[1..], prefix)
  }

  /** An output that ends where a line ends. */
  predicate Complete(s: Bytes) { s == "" || s[|s| - 1] == '\n' }

  // ----- lines of concatenations -----

  lemma {:induction false} FirstOfJoin(a: Bytes, b: Bytes)
    requires a != "" && Complete(a)
    ensures FirstLine(a + b) == FirstLine(a)
  {
    assert (a + b)[1..] == a[1..] + b;
    if |a| > 1 && !(a[0] == '\r' && a[1] == '\n') && !Break(a[0]) {
      FirstOfJoin(a[1..], b);
    }
  }

  /** Appending to a complete output adds lines and changes none. */
  lemma {:induction false} LinesJoin(a: Bytes, b: Bytes)
    requires Complete(a)
    ensures Lines(a + b) == Lines(a) + Lines(b)
    decreases |a|
  {
    if a == "" {
      assert a + b == b && [] + Lines(b) == Lines(b);
    } else {
      FirstOfJoin(a, b);
      var n := FirstLine(a);
      assert (a + b)[..n] == a[..n] && (a + b)[n..] == a[n..] + b;
      LinesJoin(a[n..], b);
    }
  }

  lemma {:induction false} OneLine(text: Bytes)
    requires NoBreak(text)
    ensures FirstLine(text + "\n") == |text| + 1
  {
    if text != "" {
      assert (text + "\n")[0] == text[0] && (text + "\n")[1..] == text[1..] + "\n";
      OneLine(text[1..]);
    }
  }

  lemma LinesOfOne(text: Bytes)
    requires NoBreak(text)
    ensures Lines(text + "\n") == [text + "\n"]
  {
    var line := text + "\n";
    OneLine(text);
    assert line[..|line|] == line && line[|line|..] == "";
    assert Lines("") == [];
  }

  predicate WholeLines(lines: seq<Bytes>) {
    forall i :: 0 <= i < |lines| ==> lines[i] != "" && Complete(lines[i]) && NoBreak(lines[i][..|lines[i]| - 1])
  }

  lemma {:induction false} ConcatComplete(lines: seq<Bytes>)
    requires WholeLines(lines)
    ensures Complete(Concat(lines))
  {
    if lines != [] {
      ConcatComplete(lines[1..]);
    }
  }

  lemma {:induction false} LinesOfConcat(lines: seq<Bytes>)
    requires WholeLines(lines)
    ensures Lines(Concat(lines)) == lines
  {
    if lines != [] {
      var text := lines[0][..|lines[0]| - 1];
      assert lines[0] == text + "\n";
      LinesOfOne(text);
      LinesOfConcat(lines[1..]);
      LinesJoin(lines[0], Concat(lines[1..]));
      assert lines == [lines[0]] + lines[1..];
    }
  }

  lemma {:induction false} PrefixJoin(a: seq<Bytes>, b: seq<Bytes>, prefix: Bytes)
    ensures WithPrefix(a + b, prefix) == WithPrefix(a, prefix) + WithPrefix(b, prefix)
  {
    if a == [] {
      assert a + b == b;
    } else {
      assert (a + b)[1..] == a[1..] + b;
      PrefixJoin(a[1..], b, prefix);
    }
  }

  predicate Free(lines: seq<Bytes>, prefix: Bytes) { forall i :: 0 <= i < |lines| ==> !StartsWith(lines[i], prefix) }

  lemma {:induction false} FreeHasNone(lines: seq<Bytes>, prefix: Bytes)
    requires Free(lines, prefix)
    ensures WithPrefix(lines, prefix) == []
  {
    if lines != [] {
      FreeHasNone(lines[1..], prefix);
    }
  }

  lemma {:induction false} AllHave(lines: seq<Bytes>, prefix: Bytes)
    requires forall i :: 0 <= i < |lines| ==> StartsWith(lines[i], prefix)
    ensures WithPrefix(lines, prefix) == lines
  {
    if lines != [] {
      AllHave(lines[1..], prefix);
      assert lines == [lines[0]] + lines[1..];
    }
  }

  /** Ending an unfinished last line keeps every earlier line, and what each line starts with. */
  function Finished(s: Bytes): Bytes { if s != "" && s[|s| - 1] != '\n' then s + "\n" else s }

  lemma FinishedComplete(s: Bytes)
    ensures Complete(Finished(s))
  {}

  lemma {:induction false} FirstOfFinished(s: Bytes)
    requires s != "" && s[|s| - 1] != '\n'
    ensures FirstLine(s + "\n") == FirstLine(s) || (FirstLine(s) == |s| && FirstLine(s + "\n") == |s| + 1)
  {
    assert (s + "\n")[1..] == s[1..] + "\n";
    if |s| > 1 && !(s[0] == '\r' && s[1] == '\n') && !Break(s[0]) {
      FirstOfFinished(s[1..]);
    }
  }

  lemma ExtendedStart(a: Bytes, prefix: Bytes)
    requires NoBreak(prefix) && prefix != ""
    ensures StartsWith(a + "\n", prefix) <==> StartsWith(a, prefix)
    ensures !StartsWith("\n", prefix)
  {
    var last := prefix[|prefix| - 1];
    assert !Break(last) && (a + "\n")[|a|] == '\n' && "\n"[0] == '\n';
    assert !Break(prefix[0]);
  }

  lemma {:induction false} FinishedFree(s: Bytes, prefix: Bytes)
    requires NoBreak(prefix) && prefix != "" && Free(Lines(s), prefix)
    ensures Free(Lines(Finished(s)), prefix)
    decreases |s|
  {
    if s != "" && s[|s| - 1] != '\n' {
      var n, m := FirstLine(s), FirstLine(s + "\n");
      FirstOfFinished(s);
      ExtendedStart(s, prefix);
      assert !StartsWith(Lines(s)[0], prefix);
      if m == n {
        assert (s + "\n")[..n] == s[..n] && (s + "\n")[n..] == s[n..] + "\n";
        if n == |s| {
          assert s[n..] + "\n" == "" + "\n";
          LinesOfOne("");
        } else {
          assert forall i :: 0 <= i < |Lines(s[n..])| ==> Lines(s[n..])[i] == Lines(s)[i + 1];
          FinishedFree(s[n..], prefix);
        }
      } else {
        assert (s + "\n")[..m] == s + "\n" && (s + "\n")[m..] == "" && s[..n] == s;
      }
    }
  }
}
