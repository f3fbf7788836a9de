/**
  The JavaScript built-ins the services rely on, restated over `seq<char>`:
  prefix tests, `String.prototype.split` and `Array.prototype.join` with a
  one-character separator, `filter(Boolean)`, `||` on strings and
  `Math.floor(Date.now() / 1000)`.

  Convention: a request field or claim that the source only ever tests for
  truthiness is a `string`, and `""` stands for both "absent" and "empty",
  which JavaScript treats alike.
 */
module Js {

  /** `s.startsWith(prefix)` */
  predicate StartsWith(s: string, prefix: string) {
    |prefix| <= |s| && s[..|prefix|] == prefix
  }

  /** `a || b` on two strings: the first one when it is non-empty. */
  function OrElse(a: string, b: string): string {
    if a != "" then a else b
  }

  /** `Math.floor(ms / 1000)`: Dafny's division by a positive divisor rounds down, as `Math.floor` does. */
  function Seconds(ms: int): (s: int)
    ensures s * 1000 <= ms < s * 1000 + 1000
  {
    ms / 1000
  }

  /**
    `s.split(sep)` for a one-character separator: the maximal separator-free
    pieces, so there is always at least one piece (`"".split(sep)` is `[""]`).
   */
  function Split(s: string, sep: char): (parts: seq<string>)
    ensures |parts| >= 1
    ensures forall i :: 0 <= i < |parts| ==> sep !in parts[i]
  {
    if |s| == 0 then [""]
    else
      var rest := Split(s[1..], sep);
      if s[0] == sep then [""] + rest
      else [[s[0]] + rest[0]] + rest[1..]
  }

  /** `parts.join(sep)` */
  function Join(parts: seq<string>, sep: char): string {
    if |parts| == 0 then ""
    else if |parts| == 1 then parts[0]
    else parts[0] + [sep] + Join(parts[1..], sep)
  }

  /** `xs.filter(Boolean)` on strings: drop the empty pieces, keep the order. */
  function NonEmpty(xs: seq<string>): (r: seq<string>)
    ensures forall i :: 0 <= i < |r| ==> r[i] != ""
    ensures forall x :: x in r <==> x in xs && x != ""
    ensures |r| <= |xs|
    ensures (forall i :: 0 <= i < |xs| ==> xs[i] != "") ==> r == xs
  {
    if |xs| == 0 then []
    else if xs[0] == "" then NonEmpty(xs[1..])
    else [xs[0]] + NonEmpty(xs[1..])
  }

  /** Filtering a concatenation filters each part and keeps them in order. */
  lemma {:induction false} NonEmptyAppend(a: seq<string>, b: seq<string>)
    ensures NonEmpty(a + b) == NonEmpty(a) + NonEmpty(b)
  {
    if |a| > 0 {
      assert (a + b)[0] == a[0];
      assert (a + b)[1..] == a[1..] + b;
      NonEmptyAppend(a[1..], b);
    } else {
      assert a + b == b;
    }
  }

  /** `required.every(x => xs.includes(x))`: evaluated element by element, as the array method does. */
  function IncludesAll(xs: seq<string>, required: seq<string>): (r: bool)
    ensures r <==> forall x :: x in required ==> x in xs
  {
    if |required| == 0 then true
    else
      assert forall x :: x in required <==> x == required[0] || x in required[1..];
      required[0] in xs && IncludesAll(xs, required[1..])
  }

  /** No element of `parts` contains `sep`. */
  predicate SeparatorFree(parts: seq<string>, sep: char) {
    forall i :: 0 <= i < |parts| ==> sep !in parts[i]
  }

  /** Joining the pieces of a split gives back the original string. */
  lemma {:induction false} JoinSplit(s: string, sep: char)
    ensures Join(Split(s, sep), sep) == s
  {
    if |s| == 0 {
    } else {
      var rest := Split(s[1..], sep);
      JoinSplit(s[1..], sep);
      if s[0] == sep {
        assert Split(s, sep) == [""] + rest;
        assert ([""] + rest)[1..] == rest;
        assert s == [sep] + s[1..];
      } else if |rest| == 1 {
        assert Split(s, sep) == [[s[0]] + rest[0]];
        assert s == [s[0]] + s[1..];
      } else {
        var parts := [[s[0]] + rest[0]] + rest[1..];
        assert Split(s, sep) == parts;
        assert parts[1..] == rest[1..];
        assert Join(rest, sep) == rest[0] + [sep] + Join(rest[1..], sep);
        assert s == [s[0]] + s[1..];
      }
    }
  }

  /** A separator-free string is a single piece. */
  lemma {:induction false} SplitSingle(a: string, sep: char)
    requires sep !in a
    ensures Split(a, sep) == [a]
  {
    if |a| > 0 {
      SplitSingle(a[1..], sep);
      assert a == [a[0]] + a[1..];
    }
  }

  /** A separator-free prefix followed by the separator is split off as the first piece. */
  lemma {:induction false} SplitPrefix(a: string, sep: char, b: string)
    requires sep !in a
    ensures Split(a + [sep] + b, sep) == [a] + Split(b, sep)
  {
    var s := a + [sep] + b;
    if |a| == 0 {
      assert s == [sep] + b;
      assert s[1..] == b;
    } else {
      assert s[1..] == a[1..] + [sep] + b;
      SplitPrefix(a[1..], sep, b);
      assert a == [a[0]] + a[1..];
    }
  }

  /** Splitting a join of separator-free pieces gives back the pieces. */
  lemma {:induction false} SplitJoin(parts: seq<string>, sep: char)
    requires |parts| >= 1
    requires SeparatorFree(parts, sep)
    ensures Split(Join(parts, sep), sep) == parts
  {
    if |parts| == 1 {
      SplitSingle(parts[0], sep);
    } else {
      SplitJoin(parts[1..], sep);
      SplitPrefix(parts[0], sep, Join(parts[1..], sep));
      assert parts == [parts[0]] + parts[1..];
    }
  }

  /** Splitting `a`, a separator and `b` gives the pieces of `a` followed by the pieces of `b`. */
  lemma {:induction false} SplitAppend(a: string, sep: char, b: string)
    ensures Split(a + [sep] + b, sep) == Split(a, sep) + Split(b, sep)
  {
    var s := a + [sep] + b;
    if |a| == 0 {
      assert s == [sep] + b;
      assert s[1..] == b;
    } else {
      assert s[0] == a[0];
      assert s[1..] == a[1..] + [sep] + b;
      SplitAppend(a[1..], sep, b);
    }
  }

  /** A string that starts with a separator-free word and the separator splits into that word and the split of the rest. */
  lemma SplitAfterWord(s: string, word: string, sep: char)
    requires sep !in word && StartsWith(s, word + [sep])
    ensures Split(s, sep) == [word] + Split(s[|word| + 1..], sep)
  {
    assert s == word + [sep] + s[|word| + 1..];
    SplitPrefix(word, sep, s[|word| + 1..]);
  }

  /**
    `header.split(' ')[1]` for a header that starts with a space-free scheme
    name and a space: the credential that follows, up to the next space.
   */
  function SchemeCredential(header: string, scheme: string): (credential: string)
    requires ' ' !in scheme && StartsWith(header, scheme + " ")
    ensures ' ' !in credential
    ensures credential == Split(header[|scheme| + 1..], ' ')[0]
  {
    SplitAfterWord(header, scheme, ' ');
    Split(header, ' ')[1]
  }

  /** The credential of `<scheme> <credential>` is `credential` when it holds no space. */
  lemma SchemeCredentialOf(scheme: string, credential: string)
    requires ' ' !in scheme && ' ' !in credential
    ensures StartsWith(scheme + " " + credential, scheme + " ")
    ensures SchemeCredential(scheme + " " + credential, scheme) == credential
  {
    var header := scheme + " " + credential;
    assert header[..|scheme + " "|] == scheme + " ";
    assert header[|scheme| + 1..] == credential;
    SplitSingle(credential, ' ');
  }
}
