/** Which length an application declared, and which of its fields are kept, said of the texts themselves
    (apiserver.py:103, 304-331, 344-361). */
module WireDeclared {
  import opened Numerals
  import opened Wire
  import opened WireHead
  import opened WireReply

  /** The same letter, or the two cases of one. */
  predicate SameLetter(a: char, b: char) {
    a == b || ('a' <= a <= 'z' && a as int - b as int == 32) || ('a' <= b <= 'z' && b as int - a as int == 32)
  }

  predicate SameName(a: Bytes, b: Bytes) { |a| == |b| && forall i :: 0 <= i < |a| ==> SameLetter(a[i], b[i]) }

  lemma LowerIs(name: Bytes, word: Bytes)
    requires Word(word)
    ensures Lower(name) == word <==> SameName(name, word)
  {
    var lower := Lower(name);
    assert forall i :: 0 <= i < |word| ==> word[i] in word;
    if |name| == |word| {
      forall i | 0 <= i < |word| ensures lower[i] == word[i] <==> SameLetter(name[i], word[i]) {}
      if SameName(name, word) { assert lower == word; }
    }
  }

  const BLANKS := " \t\n\r\U{B}\U{C}"

  lemma BlanksAre(c: char)
    ensures IsSpace(c) <==> c in BLANKS
  {
    assert BLANKS == [' ', '\t', '\n', '\r', '\U{B}', '\U{C}'];
  }

  predicate AllBlank(s: Bytes) { forall c :: c in s ==> c in BLANKS }

  /** The value says this number: its decimal digits, with nothing but blanks around them. */
  ghost predicate Says(value: Bytes, n: nat) {
    exists front, digits, back :: SaysWith(value, n, front, digits, back)
  }

  predicate SaysWith(value: Bytes, n: nat, front: Bytes, digits: Bytes, back: Bytes) {
    && value == front + digits + back && AllBlank(front) && AllBlank(back)
    && IsDecimal(digits) && ParseDecimal(digits) == n
  }

  lemma {:induction false} StripParts(s: Bytes) returns (front: Bytes, back: Bytes)
    ensures s == front + Strip(s) + back && AllBlank(front) && AllBlank(back)
    decreases |s|
  {
    front, back := "", "";
    if s != "" && IsSpace(s[0]) {
      BlanksAre(s[0]);
      front, back := StripParts(s[1..]);
      front := [s[0]] + front;
      assert s == [s[0]] + s[1..];
    } else if s != "" && IsSpace(s[|s| - 1]) {
      BlanksAre(s[|s| - 1]);
      front, back := StripParts(s[..|s| - 1]);
      back := back + [s[|s| - 1]];
      assert s == s[..|s| - 1] + [s[|s| - 1]];
    }
  }

  lemma {:induction false} StripAround(front: Bytes, digits: Bytes, back: Bytes)
    requires AllBlank(front) && AllBlank(back) && IsDecimal(digits)
    ensures Strip(front + digits + back) == digits
    decreases |front| + |back|
  {
    var s := front + digits + back;
    assert digits[0] in digits && digits[|digits| - 1] in digits;
    if front != "" {
      assert s[0] == front[0] && front[0] in front && s[1..] == front[1..] + digits + back;
      BlanksAre(s[0]);
      StripAround(front[1..], digits, back);
    } else if back != "" {
      assert s[|s| - 1] == back[|back| - 1] && back[|back| - 1] in back && s[0] == digits[0];
      assert s[..|s| - 1] == front + digits + back[..|back| - 1];
      BlanksAre(s[|s| - 1]);
      StripAround(front, digits, back[..|back| - 1]);
    } else {
      assert s == digits;
      StripKeepsDigits(digits);
    }
  }

  lemma SaysIff(value: Bytes, n: nat)
    ensures Says(value, n) <==> IsDecimal(Strip(value)) && ParseDecimal(Strip(value)) == n
  {
    if IsDecimal(Strip(value)) && ParseDecimal(Strip(value)) == n {
      var front, back := StripParts(value);
      assert SaysWith(value, n, front, Strip(value), back);
    }
    if Says(value, n) {
      var front, digits, back :| SaysWith(value, n, front, digits, back);
      StripAround(front, digits, back);
    }
  }

  /** This is the first field that is named like a content length, in whatever case. */
  predicate FirstLength(headers: Headers, i: nat) {
    && i < |headers| && SameName(headers[i].0, "content-length")
    && forall k :: 0 <= k < i ==> !SameName(headers[k].0, "content-length")
  }

  /** The application declared a length exactly when the first of its fields of that name, in whatever case, says that
      number; a first field that says none declares none, whatever a later one says. */
  lemma {:induction false} DeclaredIff(headers: Headers, n: nat)
    ensures DeclaredLength(NAMES, headers) == Some(n)
            <==> exists i: nat :: FirstLength(headers, i) && Says(headers[i].1, n)
  {
    hide SameName, Says, Strip;
    if headers == [] {
      return;
    }
    LengthName();
    LowerIs(headers[0].0, NAMES.contentLength);
    SaysIff(headers[0].1, n);
    if SameName(headers[0].0, "content-length") {
      assert FirstLength(headers, 0);
    } else {
      DeclaredIff(headers[1..], n);
      if exists i: nat :: FirstLength(headers[1..], i) && Says(headers[1..][i].1, n) {
        var i: nat :| FirstLength(headers[1..], i) && Says(headers[1..][i].1, n);
        assert FirstLength(headers, i + 1) by {
          forall k | 0 <= k < i + 1 ensures !SameName(headers[k].0, "content-length") {
            if k > 0 { assert headers[k] == headers[1..][k - 1]; }
          }
        }
      }
      if exists i: nat :: FirstLength(headers, i) && Says(headers[i].1, n) {
        var i: nat :| FirstLength(headers, i) && Says(headers[i].1, n);
        assert i > 0;
        assert FirstLength(headers[1..], i - 1) by {
          forall k | 0 <= k < i - 1 ensures !SameName(headers[1..][k].0, "content-length") {
            assert headers[1..][k] == headers[k + 1];
          }
        }
      }
    }
  }

  /** A field is the server's own business if it is named like one of the three, in whatever case. */
  predicate Reserved(name: Bytes) {
    SameName(name, "content-length") || SameName(name, "transfer-encoding") || SameName(name, "connection")
  }

  lemma HopByHopIs(name: Bytes)
    ensures HopByHop(NAMES, name) <==> Reserved(name)
  {
    hide SameName;
    NamesAreWords();
    LowerIs(name, NAMES.contentLength);
    LowerIs(name, NAMES.transferEncoding);
    LowerIs(name, NAMES.connection);
  }

  /** The application's fields reach the wire one by one, in order and unchanged, but for the reserved ones. */
  lemma KeptIs(before: Headers, h: (Bytes, Bytes), after: Headers)
    ensures Kept(NAMES, before + [h] + after)
            == Kept(NAMES, before) + (if Reserved(h.0) then [] else [h]) + Kept(NAMES, after)
    ensures Kept(NAMES, []) == []
  {
    hide Reserved;
    HopByHopIs(h.0);
    KeptJoin(before + [h], after);
    KeptJoin(before, [h]);
    assert [h][1..] == [] && Kept(NAMES, [h]) == if Reserved(h.0) then [] else [h];
  }

  lemma {:induction false} KeptJoin(a: Headers, b: Headers)
    ensures Kept(NAMES, a + b) == Kept(NAMES, a) + Kept(NAMES, b)
  {
    if a == [] {
      assert a + b == b;
    } else {
      assert (a + b)[1..] == a[1..] + b;
      KeptJoin(a[1..], b);
    }
  }
}
