/** Callback data tokens. The service buttons carry `service_<key>`, and the
    handler recovers the key as `data.split("_")[1]` (bot.py:62). `Split` is
    Python's `str.split` with an explicit one-character separator; `Join` is
    its inverse `sep.join`. */
module Tokens {

  const Separator: char := '_'
  const ServicePrefix: string := "service_"
  const StartToken: string := "start_order"
  const CancelToken: string := "cancel"

  predicate StartsWith(s: string, prefix: string)
  {
    |prefix| <= |s| && s[..|prefix|] == prefix
  }

  /** The callback filter `F.data.startswith("service_")`. */
  predicate IsServiceToken(data: string)
  {
    StartsWith(data, ServicePrefix)
  }

  /** The start and cancel tokens are not mistaken for service tokens. */
  lemma ControlTokensNotService()
    ensures !IsServiceToken(StartToken) && !IsServiceToken(CancelToken)
    ensures StartToken != CancelToken
  {
    assert StartToken[..|ServicePrefix|][1] != ServicePrefix[1];
  }

  /** `s.split(sep)`: the maximal separator-free pieces, in order. */
  function Split(s: string, sep: char): (parts: seq<string>)
    ensures |parts| >= 1
    ensures sep in s ==> |parts| >= 2
    ensures forall p :: p in parts ==> sep !in p
  {
    if s == [] then [[]]
    else
      var rest := Split(s[1..], sep);
      if s[0] == sep then [[]] + rest
      else [[s[0]] + rest[0]] + rest[1..]
  }

  /** `sep.join(parts)`. */
  function Join(parts: seq<string>, sep: char): string
    requires |parts| >= 1
  {
    if |parts| == 1 then parts[0] else parts[0] + [sep] + Join(parts[1..], sep)
  }

  /** Joining the pieces of a split gives back the original text. */
  lemma {:induction false} JoinSplit(s: string, sep: char)
    ensures Join(Split(s, sep), sep) == s
  {
    if s != [] {
      var rest := Split(s[1..], sep);
      JoinSplit(s[1..], sep);
      if s[0] == sep {
        assert Split(s, sep) == [[]] + rest;
        assert ([[]] + rest)[1..] == rest;
      } else {
        var parts := [[s[0]] + rest[0]] + rest[1..];
        assert Split(s, sep) == parts;
        if |rest| == 1 {
          assert Join(rest, sep) == rest[0];
        } else {
          assert parts[1..] == rest[1..];
          assert Join(rest, sep) == rest[0] + [sep] + Join(rest[1..], sep);
        }
        assert [s[0]] + s[1..] == s;
      }
    }
  }

  /** A separator-free word followed by the separator splits off as one piece. */
  lemma {:induction false} SplitWord(w: string, t: string, sep: char)
    requires sep !in w
    ensures Split(w + [sep] + t, sep) == [w] + Split(t, sep)
    ensures Split(w, sep) == [w]
  {
    if w == [] {
      assert w + [sep] + t == [sep] + t;
      assert ([sep] + t)[1..] == t;
    } else {
      SplitWord(w[1..], t, sep);
      assert (w + [sep] + t)[1..] == w[1..] + [sep] + t;
      assert [w[0]] + w[1..] == w;
    }
  }

  /** Splitting a join of separator-free pieces gives back the pieces. */
  lemma {:induction false} SplitJoin(parts: seq<string>, sep: char)
    requires |parts| >= 1
    requires forall p :: p in parts ==> sep !in p
    ensures Split(Join(parts, sep), sep) == parts
  {
    SplitWord(parts[0], [], sep);
    if |parts| > 1 {
      assert parts[0] in parts;
      assert forall p :: p in parts[1..] ==> p in parts;
      SplitJoin(parts[1..], sep);
      SplitWord(parts[0], Join(parts[1..], sep), sep);
      assert [parts[0]] + parts[1..] == parts;
    }
  }

  /** `callback.data.split("_")[1]`; the `service_` filter guarantees a second piece. */
  function ServiceKey(data: string): (key: string)
    requires IsServiceToken(data)
    ensures Separator !in key
  {
    assert data[7] == ServicePrefix[7];
    Split(data, Separator)[1]
  }

  /** The key is the first separator-free piece of the text after the prefix. */
  lemma ServiceKeyAfterPrefix(tail: string)
    ensures IsServiceToken(ServicePrefix + tail)
    ensures ServiceKey(ServicePrefix + tail) == Split(tail, Separator)[0]
  {
    var head := "service";
    assert Separator !in head;
    assert ServicePrefix + tail == head + [Separator] + tail;
    SplitWord(head, tail, Separator);
    assert (ServicePrefix + tail)[..|ServicePrefix|] == ServicePrefix;
  }

  /** The key of `service_<key>` is `<key>`, whatever follows a further separator. */
  lemma ServiceKeyOf(key: string, rest: string)
    requires Separator !in key
    ensures IsServiceToken(ServicePrefix + key)
    ensures ServiceKey(ServicePrefix + key) == key
    ensures IsServiceToken(ServicePrefix + key + [Separator] + rest)
    ensures ServiceKey(ServicePrefix + key + [Separator] + rest) == key
  {
    ServiceKeyAfterPrefix(key);
    SplitWord(key, rest, Separator);
    ServiceKeyAfterPrefix(key + [Separator] + rest);
    assert ServicePrefix + key + [Separator] + rest == ServicePrefix + (key + [Separator] + rest);
  }
}
