/** The parts of Python's built-in `str` that prompt rendering relies on:
    `str.isspace` on one character and `str.strip()` with no argument. */
module PyStr {

  /** Python's whitespace test on a single code point (`' '.isspace()`): the
      characters whose bidirectional class is WS, B or S, or whose category is Zs. */
  predicate IsSpace(c: char) {
    var n := c as int;
    (0x09 <= n <= 0x0D) || (0x1C <= n <= 0x20) || n == 0x85 || n == 0xA0 || n == 0x1680
    || (0x2000 <= n <= 0x200A) || n == 0x2028 || n == 0x2029 || n == 0x202F
    || n == 0x205F || n == 0x3000
  }

  predicate AllSpace(s: string) {
    forall i :: 0 <= i < |s| ==> IsSpace(s[i])
  }

  /** `s.rstrip()`. */
  function StripTrailing(s: string): string {
    if |s| > 0 && IsSpace(s[|s| - 1]) then StripTrailing(s[..|s| - 1]) else s
  }

  /** `s.rstrip()` is the longest prefix of `s` that does not end in
      whitespace: everything it cuts off is whitespace. */
  lemma {:induction false} StripTrailingSpec(s: string)
    ensures var r := StripTrailing(s);
      |r| <= |s| && r == s[..|r|] && AllSpace(s[|r|..]) && (r == [] || !IsSpace(r[|r| - 1]))
    decreases |s|
  {
    if |s| > 0 && IsSpace(s[|s| - 1]) {
      var s' := s[..|s| - 1];
      StripTrailingSpec(s');
      var r := StripTrailing(s');
      assert s[|r|..] == s'[|r|..] + [s[|s| - 1]];
    }
  }

  /** `s.lstrip()`. */
  function StripLeading(s: string): string {
    if |s| > 0 && IsSpace(s[0]) then StripLeading(s[1..]) else s
  }

  /** `s.lstrip()` is the longest suffix of `s` that does not start with
      whitespace: everything it cuts off is whitespace. */
  lemma {:induction false} StripLeadingSpec(s: string)
    ensures var r := StripLeading(s);
      |r| <= |s| && r == s[|s| - |r|..] && AllSpace(s[..|s| - |r|]) && (r == [] || !IsSpace(r[0]))
    decreases |s|
  {
    if |s| > 0 && IsSpace(s[0]) {
      StripLeadingSpec(s[1..]);
      var r := StripLeading(s[1..]);
      assert s[..|s| - |r|] == [s[0]] + s[1..][..|s[1..]| - |r|];
    }
  }

  /** `s.strip()`: whitespace removed from both ends. */
  function Strip(s: string): (r: string)
  {
    StripTrailing(StripLeading(s))
  }

  /** `r` sits in `s` at offset `i`, only whitespace lies around it, and it
      neither starts nor ends with whitespace. */
  predicate TrimmedAt(s: string, r: string, i: int) {
    0 <= i <= |s| - |r| && r == s[i..i + |r|]
    && AllSpace(s[..i]) && AllSpace(s[i + |r|..])
    && (r == [] || (!IsSpace(r[0]) && !IsSpace(r[|r| - 1])))
  }

  /** What `s.strip()` returns is `s` with whitespace cut from both ends. */
  lemma StripIsTrimmedSlice(s: string)
    ensures exists i :: TrimmedAt(s, Strip(s), i)
  {
    var l := StripLeading(s);
    var r := StripTrailing(l);
    var i := |s| - |l|;
    StripLeadingSpec(s);
    StripTrailingSpec(l);
    assert r == s[i..i + |r|] by {
      assert l == s[i..];
    }
    assert AllSpace(s[i + |r|..]) by {
      assert l == s[i..];
      assert s[i + |r|..] == l[|r|..];
    }
    assert r == [] || !IsSpace(r[0]) by {
      if r != [] { assert r[0] == l[0]; }
    }
    assert TrimmedAt(s, Strip(s), i);
  }

  /** A string that starts with a non-whitespace character loses nothing on the left. */
  lemma StripLeadingNoop(s: string)
    requires |s| > 0 && !IsSpace(s[0])
    ensures Strip(s) == StripTrailing(s)
  {
  }

  /** Stripping the right end of a concatenation: if `b` has anything besides
      whitespace, only `b` is trimmed; otherwise `b` disappears and `a` is trimmed. */
  lemma {:induction false} StripTrailingAppend(a: string, b: string)
    ensures StripTrailing(a + b) ==
      if StripTrailing(b) == [] then StripTrailing(a) else a + StripTrailing(b)
    decreases |b|
  {
    if |b| == 0 {
      assert a + b == a;
    } else if IsSpace(b[|b| - 1]) {
      var b' := b[..|b| - 1];
      assert (a + b)[..|a + b| - 1] == a + b';
      StripTrailingAppend(a, b');
    } else {
      assert (a + b)[|a + b| - 1] == b[|b| - 1];
    }
  }

  /** `StripTrailing` leaves nothing to trim: it is idempotent. */
  lemma StripTrailingIdempotent(s: string)
    ensures StripTrailing(StripTrailing(s)) == StripTrailing(s)
  {
    StripTrailingSpec(s);
  }

  /** A string is trimmed to nothing exactly when it is all whitespace. */
  lemma {:induction false} StripTrailingEmptyIff(s: string)
    ensures StripTrailing(s) == [] <==> AllSpace(s)
    decreases |s|
  {
    if |s| > 0 && IsSpace(s[|s| - 1]) {
      var s' := s[..|s| - 1];
      StripTrailingEmptyIff(s');
      if AllSpace(s') {
        forall i | 0 <= i < |s| ensures IsSpace(s[i]) {
          if i < |s| - 1 { assert s[i] == s'[i]; }
        }
      }
      if AllSpace(s) {
        forall i | 0 <= i < |s'| ensures IsSpace(s'[i]) {
          assert s'[i] == s[i];
        }
      }
    }
  }
}
