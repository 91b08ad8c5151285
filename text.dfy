/** The JavaScript string operations the screens use: `\s` and `\D` removal, `trim`,
    ASCII case mapping and `includes`. Strings are sequences of characters. */
module Text {
  import Seqs

  /** The characters JavaScript's `\s` matches and `String.prototype.trim` removes:
      the WhiteSpace and LineTerminator characters of ECMAScript. */
  predicate IsWhitespace(c: char) {
    || c == '\t' || c == '\n' || c == '\U{000B}' || c == '\U{000C}' || c == '\r' || c == ' '
    || c == '\U{00A0}' || c == '\U{1680}' || ('\U{2000}' <= c <= '\U{200A}')
    || c == '\U{2028}' || c == '\U{2029}' || c == '\U{202F}' || c == '\U{205F}'
    || c == '\U{3000}' || c == '\U{FEFF}'
  }

  predicate IsNotWhitespace(c: char) { !IsWhitespace(c) }

  predicate IsDigit(c: char) { '0' <= c <= '9' }

  predicate NoWhitespace(s: string) { forall i :: 0 <= i < |s| ==> !IsWhitespace(s[i]) }

  predicate AllDigits(s: string) { forall i :: 0 <= i < |s| ==> IsDigit(s[i]) }

  /** `s.replace(/\s/g, '')` */
  function StripWhitespace(s: string): (r: string)
    ensures |r| <= |s| && NoWhitespace(r)
  {
    Seqs.Filter(s, IsNotWhitespace)
  }

  /** `s.replace(/\D/g, '')` */
  function KeepDigits(s: string): (r: string)
    ensures |r| <= |s| && AllDigits(r)
  {
    Seqs.Filter(s, IsDigit)
  }

  /** Removing whitespace from a string that has none changes nothing. */
  lemma StripWhitespaceOfClean(s: string)
    requires NoWhitespace(s)
    ensures StripWhitespace(s) == s
  {
    Seqs.FilterKeepsAll(s, IsNotWhitespace);
  }

  /** Removing non-digits from a string of digits changes nothing. */
  lemma KeepDigitsOfDigits(s: string)
    requires AllDigits(s)
    ensures KeepDigits(s) == s
  {
    Seqs.FilterKeepsAll(s, IsDigit);
  }

  /** Neither starts nor ends with whitespace. */
  predicate Trimmed(s: string) {
    s == [] || (!IsWhitespace(s[0]) && !IsWhitespace(s[|s| - 1]))
  }

  /** `s.trim()`: leading and trailing whitespace dropped, one character at a time. */
  function Trim(s: string): (r: string)
    ensures |r| <= |s| && Trimmed(r)
    decreases |s|
  {
    if s == [] then s
    else if IsWhitespace(s[0]) then Trim(s[1..])
    else if IsWhitespace(s[|s| - 1]) then Trim(s[..|s| - 1])
    else s
  }

  /** `r` sits at offset `i` of `s`, and everything of `s` around it is whitespace. */
  predicate TrimmedAt(s: string, r: string, i: int) {
    && 0 <= i <= |s| - |r| && r == s[i..i + |r|]
    && (forall k :: 0 <= k < i ==> IsWhitespace(s[k]))
    && (forall k :: i + |r| <= k < |s| ==> IsWhitespace(s[k]))
  }

  /** The trim of `s` is a contiguous slice of it, obtained by dropping only whitespace on
      either side. */
  lemma {:induction false} TrimSlice(s: string)
    ensures exists i :: TrimmedAt(s, Trim(s), i)
    decreases |s|
  {
    var r := Trim(s);
    if s == [] || (!IsWhitespace(s[0]) && !IsWhitespace(s[|s| - 1])) {
      assert TrimmedAt(s, r, 0);
    } else if IsWhitespace(s[0]) {
      TrimSlice(s[1..]);
      var i :| TrimmedAt(s[1..], r, i);
      SliceAfterLeading(s, r, i);
    } else {
      TrimSlice(s[..|s| - 1]);
      var i :| TrimmedAt(s[..|s| - 1], r, i);
      SliceBeforeTrailing(s, r, i);
    }
  }

  lemma SliceAfterLeading(s: string, r: string, i: int)
    requires s != [] && IsWhitespace(s[0]) && TrimmedAt(s[1..], r, i)
    ensures TrimmedAt(s, r, i + 1)
  {
    var t := s[1..];
    assert s[i + 1..i + 1 + |r|] == t[i..i + |r|];
    forall k | 0 < k < i + 1 ensures IsWhitespace(s[k]) {
      assert s[k] == t[k - 1];
    }
    forall k | i + 1 + |r| <= k < |s| ensures IsWhitespace(s[k]) {
      assert s[k] == t[k - 1];
    }
  }

  lemma SliceBeforeTrailing(s: string, r: string, i: int)
    requires s != [] && !IsWhitespace(s[0]) && IsWhitespace(s[|s| - 1])
    requires TrimmedAt(s[..|s| - 1], r, i)
    ensures TrimmedAt(s, r, i)
  {
    var t := s[..|s| - 1];
    assert t[0] == s[0];
    assert i == 0;
    assert s[i..i + |r|] == t[i..i + |r|];
    forall k | i + |r| <= k < |s| - 1 ensures IsWhitespace(s[k]) {
      assert s[k] == t[k];
    }
  }

  /** `!s.trim()`: the string is empty after trimming. */
  predicate IsBlank(s: string)
    ensures s == [] ==> IsBlank(s)
    ensures Trimmed(s) ==> (IsBlank(s) <==> s == [])
  {
    Trim(s) == []
  }

  /** A string is blank exactly when every character of it is whitespace. */
  lemma {:induction false} BlankIffAllWhitespace(s: string)
    ensures IsBlank(s) <==> forall i :: 0 <= i < |s| ==> IsWhitespace(s[i])
    decreases |s|
  {
    if s == [] {
    } else if IsWhitespace(s[0]) {
      var t := s[1..];
      BlankIffAllWhitespace(t);
      assert forall i :: 0 <= i < |t| ==> t[i] == s[i + 1];
    } else if IsWhitespace(s[|s| - 1]) {
      var t := s[..|s| - 1];
      BlankIffAllWhitespace(t);
      assert forall i :: 0 <= i < |t| ==> t[i] == s[i];
    }
  }

  /** A string is its own trim exactly when it neither starts nor ends with whitespace. */
  lemma TrimmedIff(s: string)
    ensures Trim(s) == s <==> Trimmed(s)
  {
  }

  /** Trimming twice is trimming once. */
  lemma TrimIdempotent(s: string)
    ensures Trim(Trim(s)) == Trim(s)
  {
    TrimmedIff(Trim(s));
  }

  function UpperChar(c: char): char {
    if 'a' <= c <= 'z' then (c as int - 32) as char else c
  }

  function LowerChar(c: char): char {
    if 'A' <= c <= 'Z' then (c as int + 32) as char else c
  }

  /** `s.toUpperCase()`, for the ASCII letters. */
  function ToUpper(s: string): (r: string)
    ensures |r| == |s| && forall i :: 0 <= i < |s| ==> r[i] == UpperChar(s[i])
  {
    seq(|s|, i requires 0 <= i < |s| => UpperChar(s[i]))
  }

  /** `s.toLowerCase()`, for the ASCII letters. */
  function ToLower(s: string): (r: string)
    ensures |r| == |s| && forall i :: 0 <= i < |s| ==> r[i] == LowerChar(s[i])
  {
    seq(|s|, i requires 0 <= i < |s| => LowerChar(s[i]))
  }

  /** Upper-casing is idempotent, so the gift-card inputs are stable under re-entry. */
  lemma ToUpperIdempotent(s: string)
    ensures ToUpper(ToUpper(s)) == ToUpper(s)
  {
  }

  /** `s.includes(sub)` */
  predicate Contains(s: string, sub: string)
    ensures sub == [] ==> Contains(s, sub)
    ensures Contains(s, sub) ==> |sub| <= |s|
    decreases |s|
  {
    sub <= s || (s != [] && Contains(s[1..], sub))
  }

  /** `sub` occurs in `s` starting at index `i`. */
  predicate OccursAt(s: string, sub: string, i: int) {
    0 <= i <= |s| - |sub| && s[i..i + |sub|] == sub
  }

  /** `includes` holds exactly when `sub` occurs at some position of `s`. */
  lemma {:induction false} ContainsIff(s: string, sub: string)
    ensures Contains(s, sub) <==> exists i :: OccursAt(s, sub, i)
  {
    if sub <= s {
      assert OccursAt(s, sub, 0);
    } else if s == [] {
      assert forall i :: !OccursAt(s, sub, i);
    } else {
      ContainsIff(s[1..], sub);
      if exists i :: OccursAt(s, sub, i) {
        var i :| OccursAt(s, sub, i);
        assert i != 0;
        OccursAtTail(s, sub, i);
      }
      if exists i :: OccursAt(s[1..], sub, i) {
        var i :| OccursAt(s[1..], sub, i);
        OccursAtTail(s, sub, i + 1);
      }
    }
  }

  /** An occurrence past the first character is an occurrence in the tail. */
  lemma OccursAtTail(s: string, sub: string, i: int)
    requires s != [] && 1 <= i
    ensures OccursAt(s, sub, i) <==> OccursAt(s[1..], sub, i - 1)
  {
    if i <= |s| - |sub| {
      var t, u := s[1..][i - 1..i - 1 + |sub|], s[i..i + |sub|];
      forall k | 0 <= k < |sub| ensures t[k] == u[k] {
        assert t[k] == s[1..][i - 1 + k] == s[i + k];
      }
      assert t == u;
    }
  }
}
