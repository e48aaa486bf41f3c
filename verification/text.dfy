/** Python string operations the agent loop relies on, over `string` (a
    sequence of Unicode code points): `str.strip()`, `str.strip('"')`,
    `'"' in s`, `str.split('"', 1)`, `str.endswith` and `"".join`. */
module Text {

  /** The speech delimiter: a plain ASCII double quote. */
  const Quote: char := '"'

  /** Python's `str.isspace()` for one code point: the characters that
      `str.strip()` with no argument removes (bidirectional classes WS, B
      and S, and general category Zs). */
  predicate IsSpace(c: char) {
    || c == ' '
    || ('\t' <= c <= '\r')
    || ('\U{1c}' <= c <= '\U{1f}')
    || c == '\U{85}'
    || c == '\U{a0}'
    || c == '\U{1680}'
    || ('\U{2000}' <= c <= '\U{200a}')
    || c == '\U{2028}'
    || c == '\U{2029}'
    || c == '\U{202f}'
    || c == '\U{205f}'
    || c == '\U{3000}'
  }

  /** The argument of a `strip` call: no argument (whitespace) or one character. */
  datatype CharSet = Spaces | Just(c: char)

  predicate Member(c: char, k: CharSet) {
    match k
    case Spaces => IsSpace(c)
    case Just(d) => c == d
  }

  /** True when every character of `s` would be stripped. */
  predicate AllIn(s: string, k: CharSet) {
    forall j :: 0 <= j < |s| ==> Member(s[j], k)
  }

  /** The end of the run of members of `k` that starts at `i`: where
      `s.lstrip(k)` would resume when scanning from `i`. */
  function SkipFrom(s: string, k: CharSet, i: nat): (n: nat)
    requires i <= |s|
    ensures i <= n <= |s|
    ensures forall j :: i <= j < n ==> Member(s[j], k)
    ensures n < |s| ==> !Member(s[n], k)
    decreases |s| - i
  {
    if i < |s| && Member(s[i], k) then SkipFrom(s, k, i + 1) else i
  }

  /** The start of the run of members of `k` that ends just before `i`,
      scanning back no further than `lo`: where `s.rstrip(k)` would cut. */
  function KeepUpTo(s: string, k: CharSet, lo: nat, i: nat): (n: nat)
    requires lo <= i <= |s|
    ensures lo <= n <= i
    ensures forall j :: n <= j < i ==> Member(s[j], k)
    ensures lo < n ==> !Member(s[n - 1], k)
    decreases i
  {
    if lo < i && Member(s[i - 1], k) then KeepUpTo(s, k, lo, i - 1) else i
  }

  /** `s.strip(k)`: what remains of `s` once members of `k` are removed from
      both ends. The result is a contiguous piece of `s`, everything around it
      is stripped material, and its own ends are not strippable. */
  function Strip(s: string, k: CharSet): (r: string)
    ensures |r| <= |s|
    ensures r != [] ==> !Member(r[0], k) && !Member(r[|r| - 1], k)
    ensures r == [] <==> AllIn(s, k)
    ensures Within(r, s, k)
  {
    var a := SkipFrom(s, k, 0);
    var b := KeepUpTo(s, k, a, |s|);
    assert Around(s, a, s[a..b], k);
    s[a..b]
  }

  /** `r` is a contiguous piece of `s` with only members of `k` around it. */
  predicate Within(r: string, s: string, k: CharSet) {
    exists i :: 0 <= i <= |s| - |r| && Around(s, i, r, k)
  }

  /** `r` sits in `s` at offset `i`, with only members of `k` before and
      after it. */
  predicate Around(s: string, i: int, r: string, k: CharSet)
    requires 0 <= i <= |s| - |r|
  {
    && s[i..i + |r|] == r
    && (forall j :: 0 <= j < i ==> Member(s[j], k))
    && (forall j :: i + |r| <= j < |s| ==> Member(s[j], k))
  }

  /** Python's `s.strip()`. */
  function StripSpace(s: string): string {
    Strip(s, Spaces)
  }

  /** Python's `s.strip('"')`. */
  function StripQuotes(s: string): string {
    Strip(s, Just(Quote))
  }

  /** Python's truthiness of `s.strip()`: some character is not whitespace. */
  predicate HasText(s: string) {
    StripSpace(s) != []
  }

  /** Stripping a string whose ends are already unstrippable changes nothing. */
  lemma StripClean(s: string, k: CharSet)
    requires s != [] ==> !Member(s[0], k) && !Member(s[|s| - 1], k)
    ensures Strip(s, k) == s
  {
    assert s[0..|s|] == s;
  }

  /** Strippable material after an unstrippable piece is all that goes. */
  lemma StripAround(r: string, w: string, k: CharSet)
    requires r != [] && !Member(r[0], k) && !Member(r[|r| - 1], k) && AllIn(w, k)
    ensures Strip(r + w, k) == r
  {
    var s := r + w;
    assert s[0] == r[0] && s[|r| - 1] == r[|r| - 1];
    var a := SkipFrom(s, k, 0);
    var n := KeepUpTo(s, k, a, |s|);
    assert a == 0;
    assert n == |r|;
    assert s[0..|r|] == r;
  }

  /** Whatever `Strip` keeps was already in the input. */
  lemma StripKeeps(s: string, k: CharSet, c: char)
    requires c in Strip(s, k)
    ensures c in s
  {
    var a := SkipFrom(s, k, 0);
    var r := s[a..KeepUpTo(s, k, a, |s|)];
    assert r == Strip(s, k);
    var j :| 0 <= j < |r| && r[j] == c;
    assert s[a + j] == c;
  }

  /** Python's `"".join(xs)`. */
  function Concat(xs: seq<string>): string {
    if xs == [] then [] else xs[0] + Concat(xs[1..])
  }

  lemma {:induction false} ConcatAppend(xs: seq<string>, ys: seq<string>)
    ensures Concat(xs + ys) == Concat(xs) + Concat(ys)
    decreases |xs|
  {
    if xs == [] {
      assert xs + ys == ys;
    } else {
      assert (xs + ys)[1..] == xs[1..] + ys;
      ConcatAppend(xs[1..], ys);
    }
  }

  /** Python's `s.endswith(suffix)`: `suffix` is a trailing piece of `s`. */
  predicate EndsWith<T(==)>(s: seq<T>, suffix: seq<T>) {
    |suffix| <= |s| && s[|s| - |suffix|..] == suffix
  }

  /** A trailing piece stays trailing when text is put in front. */
  lemma EndsWithExtend(pre: string, s: string, suffix: string)
    requires EndsWith(s, suffix)
    ensures EndsWith(pre + s, suffix)
  {
    var w := pre + s;
    forall j | 0 <= j < |suffix| ensures w[|w| - |suffix|..][j] == suffix[j] {
      assert w[|w| - |suffix| + j] == s[|s| - |suffix| + j];
    }
  }

  /** A trailing piece of a trailing piece is a trailing piece. */
  lemma EndsWithShorter<T>(s: seq<T>, suffix: seq<T>, n: nat)
    requires EndsWith(s, suffix) && n <= |suffix|
    ensures EndsWith(s, suffix[|suffix| - n..])
  {
    assert s[|s| - n..] == s[|s| - |suffix|..][|suffix| - n..];
  }

  /** `p` is a leading piece of `s`. */
  predicate IsPrefix<T(==)>(p: seq<T>, s: seq<T>) {
    |p| <= |s| && s[..|p|] == p
  }

  lemma PrefixTransitive<T>(a: seq<T>, b: seq<T>, c: seq<T>)
    requires IsPrefix(a, b) && IsPrefix(b, c)
    ensures IsPrefix(a, c)
  {
    assert c[..|a|] == c[..|b|][..|a|];
  }

  lemma AppendAssoc<T>(a: seq<T>, b: seq<T>, c: seq<T>)
    ensures a + (b + c) == a + b + c
  {
  }

  /** Replacing a whole by its two parts after a common prefix. */
  lemma Shift<T>(pre: seq<T>, head: seq<T>, tail: seq<T>, whole: seq<T>)
    requires whole == head + tail
    ensures pre + head + tail == pre + whole
  {
  }

  /** The index of the first quote in `s`; `s.split('"', 1)` cuts there. */
  function FirstQuote(s: string): (k: nat)
    requires Quote in s
    ensures k < |s| && s[k] == Quote && Quote !in s[..k]
  {
    if s[0] == Quote then 0
    else
      assert Quote in s[1..] by {
        var j :| 0 <= j < |s| && s[j] == Quote;
        assert s[1..][j - 1] == Quote;
      }
      var k := 1 + FirstQuote(s[1..]);
      assert s[..k] == [s[0]] + s[1..][..k - 1];
      k
  }

  /** Text without a quote in front of `v` only shifts where the first quote
      of `v` is found. */
  lemma FirstQuoteAfter(w: string, v: string)
    requires Quote !in w && Quote in v
    ensures Quote in w + v
    ensures FirstQuote(w + v) == |w| + FirstQuote(v)
    ensures (w + v)[..FirstQuote(w + v)] == w + v[..FirstQuote(v)]
  {
    var c := w + v;
    var k := |w| + FirstQuote(v);
    assert c[k] == Quote;
    assert c[..k] == w + v[..FirstQuote(v)];
  }
}
