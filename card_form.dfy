/** The simulated card-entry form of the checkout dialog: the formatting applied on
    every keystroke to the card number, expiry and CVC, and the form's validity. */
module CardForm {
  import opened Text

  function Min(a: int, b: int): int { if a < b then a else b }

  /** `s.match(/.{1,4}/g).join(' ')`: `s` cut into chunks of four (the last one may be
      shorter) joined by single spaces; the empty string when `s` is empty. */
  function GroupByFour(s: string): (r: string)
    ensures |r| == if s == [] then 0 else |s| + (|s| - 1) / 4
  {
    if |s| <= 4 then s else s[..4] + " " + GroupByFour(s[4..])
  }

  /** Position `i` of the grouped string is a separator exactly when `i % 5 == 4`;
      every other position holds character `i - i / 5` of the input. */
  lemma {:induction false} GroupByFourAt(s: string, i: nat)
    requires i < |GroupByFour(s)|
    ensures GroupByFour(s)[i] == if i % 5 == 4 then ' ' else s[i - i / 5]
  {
    if |s| > 4 && i >= 5 {
      GroupByFourAt(s[4..], i - 5);
      assert (i - 5) % 5 == i % 5 && (i - 5) / 5 == i / 5 - 1;
    }
  }

  /** `formatCardNumber`: whitespace removed, grouped by four, cut to 19 characters. */
  function FormatCardNumber(value: string): (r: string)
    ensures |r| <= 19
  {
    var grouped := GroupByFour(StripWhitespace(value));
    grouped[..Min(|grouped|, 19)]
  }

  /** The formatted number is the grouping of the first (at most) 16 non-whitespace
      characters of the input. */
  lemma FormatCardNumberIsGroupedPrefix(value: string)
    ensures var c := StripWhitespace(value);
      FormatCardNumber(value) == GroupByFour(c[..Min(|c|, 16)])
  {
    var c := StripWhitespace(value);
    var d := c[..Min(|c|, 16)];
    var r := FormatCardNumber(value);
    if |c| > 16 {
      var g, h := GroupByFour(c), GroupByFour(d);
      assert |h| == 19 && |r| == 19;
      forall i | 0 <= i < 19 ensures r[i] == h[i] {
        GroupByFourAt(c, i);
        GroupByFourAt(d, i);
      }
    } else {
      assert d == c;
    }
  }

  /** The shape of the formatted number: at most 19 characters, a single space at
      every fifth position and nowhere else, no other whitespace, no trailing space. */
  lemma FormatCardNumberShape(value: string)
    ensures var r := FormatCardNumber(value);
      && |r| <= 19
      && (forall i :: 0 <= i < |r| ==> (r[i] == ' ' <==> i % 5 == 4))
      && (forall i :: 0 <= i < |r| && r[i] != ' ' ==> !IsWhitespace(r[i]))
      && (r == [] || r[|r| - 1] != ' ')
  {
    var c := StripWhitespace(value);
    var d := c[..Min(|c|, 16)];
    var r := FormatCardNumber(value);
    FormatCardNumberIsGroupedPrefix(value);
    forall i | 0 <= i < |r|
      ensures r[i] == ' ' <==> i % 5 == 4
      ensures r[i] != ' ' ==> !IsWhitespace(r[i])
    {
      GroupByFourAt(d, i);
    }
    if r != [] {
      var n := |d|;
      assert (|r| - 1) % 5 != 4 by {
        assert |r| - 1 == n + (n - 1) / 4 - 1;
      }
    }
  }

  /** Removing whitespace from a grouping of whitespace-free text gives the text back. */
  lemma {:induction false} StripGroupByFour(d: string)
    requires NoWhitespace(d)
    ensures StripWhitespace(GroupByFour(d)) == d
  {
    if |d| <= 4 {
      StripWhitespaceOfClean(d);
    } else {
      StripGroupByFour(d[4..]);
      StripWhitespaceOfClean(d[..4]);
      StripSpaceJoin(d[..4], GroupByFour(d[4..]));
      assert d[..4] + d[4..] == d;
    }
  }

  lemma StripSpaceJoin(a: string, b: string)
    ensures StripWhitespace(a + " " + b) == StripWhitespace(a) + StripWhitespace(b)
  {
    assert StripWhitespace(" ") == "" by {
      assert " "[1..] == "";
    }
    Seqs.FilterConcat(a, " ", IsNotWhitespace);
    Seqs.FilterConcat(a + " ", b, IsNotWhitespace);
  }

  /** Round trip: the formatted number, without its spaces, is the first
      min(16, n) non-whitespace characters of the input. */
  lemma FormatCardNumberRoundTrip(value: string)
    ensures var c := StripWhitespace(value);
      StripWhitespace(FormatCardNumber(value)) == c[..Min(|c|, 16)]
  {
    var c := StripWhitespace(value);
    FormatCardNumberIsGroupedPrefix(value);
    StripGroupByFour(c[..Min(|c|, 16)]);
  }

  /** Formatting an already formatted number changes nothing, so re-formatting the
      field on every keystroke is stable. */
  lemma FormatCardNumberIdempotent(value: string)
    ensures FormatCardNumber(FormatCardNumber(value)) == FormatCardNumber(value)
  {
    var c := StripWhitespace(value);
    var d := c[..Min(|c|, 16)];
    FormatCardNumberRoundTrip(value);
    FormatCardNumberIsGroupedPrefix(value);
    FormatCardNumberIsGroupedPrefix(FormatCardNumber(value));
    assert d[..Min(|d|, 16)] == d;
  }

  /** `formatExpiry`: the digits of the input; from two digits on, the first two,
      a slash, and at most the next two. */
  function FormatExpiry(value: string): (r: string)
    ensures |r| <= 5
  {
    var cleaned := KeepDigits(value);
    if |cleaned| >= 2 then cleaned[..2] + "/" + cleaned[2..Min(|cleaned|, 4)] else cleaned
  }

  /** The expiry's layout: digits everywhere except a slash at index 2, which is present
      exactly when the input holds at least two digits; the digits shown are the first
      min(4, n) digits of the input. */
  lemma FormatExpiryShape(value: string)
    ensures var r, c := FormatExpiry(value), KeepDigits(value);
      && (|r| >= 3 <==> |c| >= 2)
      && (forall i :: 0 <= i < |r| && i != 2 ==> IsDigit(r[i]))
      && (|r| >= 3 ==> r[2] == '/')
      && KeepDigits(r) == c[..Min(|c|, 4)]
  {
    var r, c := FormatExpiry(value), KeepDigits(value);
    if |c| >= 2 {
      var a, b := c[..2], c[2..Min(|c|, 4)];
      assert KeepDigits("/") == "" by {
        assert "/"[1..] == "";
      }
      Seqs.FilterConcat(a, "/", IsDigit);
      Seqs.FilterConcat(a + "/", b, IsDigit);
      KeepDigitsOfDigits(a);
      KeepDigitsOfDigits(b);
      assert a + b == c[..Min(|c|, 4)];
    } else {
      KeepDigitsOfDigits(c);
    }
  }

  /** The expiry field is complete (five characters) exactly when at least four digits
      were typed. */
  lemma FormatExpiryComplete(value: string)
    ensures |FormatExpiry(value)| == 5 <==> |KeepDigits(value)| >= 4
  {
  }

  /** Re-formatting a formatted expiry changes nothing. */
  lemma FormatExpiryIdempotent(value: string)
    ensures FormatExpiry(FormatExpiry(value)) == FormatExpiry(value)
  {
    var c := KeepDigits(value);
    FormatExpiryShape(value);
    var d := c[..Min(|c|, 4)];
    assert d[..Min(|d|, 4)] == d;
    if |c| >= 2 {
      assert d[..2] == c[..2] && d[2..Min(|d|, 4)] == c[2..Min(|c|, 4)];
    } else {
      assert d == c;
    }
  }

  /** The CVC input filter: `value.replace(/\D/g, '').substring(0, 4)`. The stored CVC is
      made of digits only and has at most four of them. */
  function FilterCvc(value: string): (r: string)
    ensures |r| <= 4 && AllDigits(r)
    ensures r <= KeepDigits(value) && |r| == Min(|KeepDigits(value)|, 4)
  {
    var cleaned := KeepDigits(value);
    cleaned[..Min(|cleaned|, 4)]
  }

  /** Filtering an already stored CVC changes nothing. */
  lemma FilterCvcIdempotent(value: string)
    ensures FilterCvc(FilterCvc(value)) == FilterCvc(value)
  {
    KeepDigitsOfDigits(FilterCvc(value));
  }

  /** The validity reported to the checkout dialog (the effect's `isValid`). */
  predicate IsValid(cardName: string, cardNumber: string, expiry: string, cvc: string)
    ensures IsValid(cardName, cardNumber, expiry, cvc) ==> cardName != "" && |cardNumber| >= 13
  {
    && !IsBlank(cardName)
    && |StripWhitespace(cardNumber)| >= 13
    && |expiry| == 5
    && |cvc| >= 3
  }

  /** In terms of what was typed: the form reports valid exactly when the name has a
      non-whitespace character, the number at least 13 non-whitespace characters, the
      expiry at least four digits and the CVC at least three digits. */
  lemma ValidFromTypedInput(name: string, number: string, expiry: string, cvc: string)
    ensures IsValid(name, FormatCardNumber(number), FormatExpiry(expiry), FilterCvc(cvc))
      <==> && (exists i :: 0 <= i < |name| && !IsWhitespace(name[i]))
           && |StripWhitespace(number)| >= 13
           && |KeepDigits(expiry)| >= 4
           && |KeepDigits(cvc)| >= 3
  {
    BlankIffAllWhitespace(name);
    FormatCardNumberRoundTrip(number);
    FormatExpiryComplete(expiry);
  }
}
