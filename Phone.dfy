/** Phone number validation of `phone_from_text` (bot.py:86-94): the text is
    stripped of surrounding whitespace, its digits are filtered out, and at
    least ten of them are required. */
module Phone {

  const MinDigits: nat := 10

  /** Python's `str.isspace`, the set `str.strip()` removes. */
  predicate IsSpace(c: char)
  {
    || c == ' ' || '\t' <= c <= '\r' || '\U{1C}' <= c <= '\U{1F}'
    || c == '\U{85}' || c == '\U{A0}' || c == '\U{1680}'
    || '\U{2000}' <= c <= '\U{200A}' || c == '\U{2028}' || c == '\U{2029}'
    || c == '\U{202F}' || c == '\U{205F}' || c == '\U{3000}'
  }

  /** `str.isdigit`, restricted to the ASCII digits. */
  predicate IsDigit(c: char)
  {
    '0' <= c <= '9'
  }

  predicate AllSpace(s: string)
  {
    forall i :: 0 <= i < |s| ==> IsSpace(s[i])
  }

  /** `str.lstrip()`: drops the leading whitespace and nothing else. */
  function TrimStart(s: string): (r: string)
    ensures |r| <= |s| && r == s[|s| - |r|..]
    ensures AllSpace(s[..|s| - |r|])
    ensures r == [] || !IsSpace(r[0])
  {
    if s != [] && IsSpace(s[0]) then TrimStart(s[1..]) else s
  }

  /** `str.rstrip()`: drops the trailing whitespace and nothing else. */
  function TrimEnd(s: string): (r: string)
    ensures |r| <= |s| && r == s[..|r|]
    ensures AllSpace(s[|r|..])
    ensures r == [] || !IsSpace(r[|r| - 1])
  {
    if s != [] && IsSpace(s[|s| - 1]) then
      var r := TrimEnd(s[..|s| - 1]);
      assert s[..|s| - 1][..|r|] == s[..|r|];
      assert s[|r|..] == s[..|s| - 1][|r|..] + [s[|s| - 1]];
      r
    else s
  }

  /** `str.strip()`. */
  function Strip(s: string): (r: string)
    ensures |r| <= |s|
    ensures r == [] || (!IsSpace(r[0]) && !IsSpace(r[|r| - 1]))
  {
    var t := TrimStart(s);
    var r := TrimEnd(t);
    assert r == t[..|r|];
    r
  }

  /** `''.join(filter(str.isdigit, s))`. */
  function Digits(s: string): (r: string)
    ensures |r| <= |s|
    ensures forall i :: 0 <= i < |r| ==> IsDigit(r[i])
  {
    if s == [] then [] else (if IsDigit(s[0]) then [s[0]] else []) + Digits(s[1..])
  }

  /** Number of digit characters in `s`, counted from the end: a reference
      definition independent of `Digits`. */
  function DigitCount(s: string): nat
  {
    if s == [] then 0
    else DigitCount(s[..|s| - 1]) + (if IsDigit(s[|s| - 1]) then 1 else 0)
  }

  /** The check of bot.py:90-91 on an already stripped phone. */
  predicate HasEnoughDigits(phone: string): (ok: bool)
    ensures ok <==> DigitCount(phone) >= MinDigits
  {
    DigitsLength(phone);
    |Digits(phone)| >= MinDigits
  }

  /** What a customer can rely on: a text is accepted iff it holds at least ten digits. */
  predicate Accepted(text: string)
  {
    DigitCount(text) >= MinDigits
  }

  lemma {:induction false} DigitsAppend(a: string, b: string)
    ensures Digits(a + b) == Digits(a) + Digits(b)
  {
    if a == [] {
      assert a + b == b;
    } else {
      assert (a + b)[1..] == a[1..] + b;
      DigitsAppend(a[1..], b);
    }
  }

  lemma {:induction false} DigitsLength(s: string)
    ensures |Digits(s)| == DigitCount(s)
  {
    if s != [] {
      var init, last := s[..|s| - 1], s[|s| - 1];
      assert s == init + [last];
      DigitsAppend(init, [last]);
      DigitsLength(init);
    }
  }

  lemma {:induction false} DigitCountAppend(a: string, b: string)
    ensures DigitCount(a + b) == DigitCount(a) + DigitCount(b)
  {
    if b == [] {
      assert a + b == a;
    } else {
      assert (a + b)[..|a + b| - 1] == a + b[..|b| - 1];
      DigitCountAppend(a, b[..|b| - 1]);
    }
  }

  /** Counting digits: all of a digit string, none of a digit-free one. */
  lemma {:induction false} DigitCountExtremes(s: string)
    ensures (forall i :: 0 <= i < |s| ==> IsDigit(s[i])) ==> DigitCount(s) == |s|
    ensures (forall i :: 0 <= i < |s| ==> !IsDigit(s[i])) ==> DigitCount(s) == 0
    ensures DigitCount(s) <= |s|
  {
    if s != [] {
      DigitCountExtremes(s[..|s| - 1]);
    }
  }

  lemma {:induction false} DigitsOfSpace(w: string)
    requires AllSpace(w)
    ensures Digits(w) == []
  {
    if w != [] {
      DigitsOfSpace(w[1..]);
    }
  }

  lemma TrimStartKeepsDigits(s: string)
    ensures Digits(TrimStart(s)) == Digits(s)
  {
    var t := TrimStart(s);
    var w := s[..|s| - |t|];
    assert s == w + t;
    DigitsAppend(w, t);
    DigitsOfSpace(w);
  }

  lemma TrimEndKeepsDigits(s: string)
    ensures Digits(TrimEnd(s)) == Digits(s)
  {
    var r := TrimEnd(s);
    var w := s[|r|..];
    assert s == r + w;
    DigitsAppend(r, w);
    DigitsOfSpace(w);
  }

  /** Stripping never removes a digit. */
  lemma StripKeepsDigits(s: string)
    ensures Digits(Strip(s)) == Digits(s)
  {
    TrimStartKeepsDigits(s);
    TrimEndKeepsDigits(TrimStart(s));
  }

  /** The check on the stripped text decides exactly `Accepted` of the raw text. */
  lemma AcceptedIffEnoughDigits(text: string)
    ensures HasEnoughDigits(Strip(text)) <==> Accepted(text)
  {
    StripKeepsDigits(text);
    DigitsLength(text);
  }

  lemma {:induction false} TrimStartAround(w: string, t: string)
    requires AllSpace(w)
    requires t == [] || !IsSpace(t[0])
    ensures TrimStart(w + t) == t
  {
    if w != [] {
      assert (w + t)[1..] == w[1..] + t;
      TrimStartAround(w[1..], t);
    }
  }

  lemma {:induction false} TrimEndAround(t: string, w: string)
    requires AllSpace(w)
    requires t == [] || !IsSpace(t[|t| - 1])
    ensures TrimEnd(t + w) == t
  {
    if w != [] {
      assert (t + w)[..|t + w| - 1] == t + w[..|w| - 1];
      TrimEndAround(t, w[..|w| - 1]);
    }
  }

  /** `strip` returns exactly the text between surrounding whitespace, and its
      result neither starts nor ends with whitespace. */
  lemma StripAround(w1: string, t: string, w2: string)
    requires AllSpace(w1) && AllSpace(w2)
    requires t == [] || (!IsSpace(t[0]) && !IsSpace(t[|t| - 1]))
    ensures Strip(w1 + t + w2) == t
  {
    if t == [] {
      assert AllSpace(w1 + w2);
      TrimStartAround(w1 + w2, []);
      assert w1 + t + w2 == (w1 + w2) + [];
    } else {
      assert w1 + t + w2 == w1 + (t + w2);
      TrimStartAround(w1, t + w2);
      TrimEndAround(t, w2);
    }
  }

  /** Stripping twice is stripping once. */
  lemma StripIdempotent(s: string)
    ensures Strip(Strip(s)) == Strip(s)
  {
    var r := Strip(s);
    StripAround([], r, []);
    assert [] + r + [] == r;
  }
}
