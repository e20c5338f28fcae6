/**
 * The header multimap of a received HTTP response, and lookup by header name.
 * A name is looked up after canonicalisation, as Go's `http.Header.Get` does:
 * a name made only of token characters is rewritten to upper case at its start
 * and after each '-', lower case elsewhere; any other name is used as given.
 */
module HeaderMap {
  import opened Tokens
  import opened JsonTree

  /** Header name to the ordered values received under it. */
  type Header = map<string, seq<string>>

  /** Case rewriting of a name; `upper` says whether the next letter starts a word. */
  function Canonicalize(s: string, upper: bool): (r: string)
    ensures |r| == |s|
  {
    if s == [] then []
    else
      var c := if upper then Upper(s[0]) else Lower(s[0]);
      [c] + Canonicalize(s[1..], c == '-')
  }

  /** The canonical form of a header name (`textproto.CanonicalMIMEHeaderKey`). */
  function CanonicalKey(name: string): (r: string)
    ensures |r| == |name|
    ensures AllTokenChars(name) ==> AllTokenChars(r) && EqualsIgnoreCase(r, name)
  {
    if AllTokenChars(name) then
      CanonicalizeKeepsTokens(name, true);
      Canonicalize(name, true)
    else name
  }

  /**
   * `Header(name)`: the first value stored under the canonical form of `name`,
   * or the empty string when there is none. A missing header is not an error.
   */
  function Get(h: Header, name: string): string {
    var key := CanonicalKey(name);
    if key in h && |h[key]| > 0 then h[key][0] else ""
  }

  /** The header map seen as a JSON object whose members are arrays of strings. */
  function HeaderObject(h: Header): (r: map<string, Json>)
    ensures r.Keys == h.Keys
  {
    map k | k in h :: Arr(Strings(h[k]))
  }

  /** A list of header values seen as a JSON array of strings. */
  function Strings(vs: seq<string>): (r: seq<Json>)
    ensures |r| == |vs|
    ensures forall i :: 0 <= i < |vs| ==> r[i] == Str(vs[i])
  {
    seq(|vs|, i requires 0 <= i < |vs| => Str(vs[i]))
  }

  /** Rewriting preserves the characters up to case and keeps them tokens. */
  lemma {:induction false} CanonicalizeKeepsTokens(s: string, upper: bool)
    requires AllTokenChars(s)
    ensures AllTokenChars(Canonicalize(s, upper))
    ensures EqualsIgnoreCase(Canonicalize(s, upper), s)
  {
    if s != [] {
      CanonicalizeKeepsTokens(s[1..], if upper then Upper(s[0]) == '-' else Lower(s[0]) == '-');
      var r := Canonicalize(s, upper);
      assert r[1..] == Canonicalize(s[1..], r[0] == '-');
      assert forall i :: 1 <= i < |r| ==> r[i] == r[1..][i - 1];
    }
  }

  /** Rewriting depends on the name only up to ASCII case. */
  lemma {:induction false} CanonicalizeIgnoresCase(a: string, b: string, upper: bool)
    requires EqualsIgnoreCase(a, b)
    ensures Canonicalize(a, upper) == Canonicalize(b, upper)
  {
    if a != [] {
      SameLowerSameUpper(a[0], b[0]);
      assert EqualsIgnoreCase(a[1..], b[1..]) by {
        forall i | 0 <= i < |a| - 1 ensures Lower(a[1..][i]) == Lower(b[1..][i]) {
          assert a[1..][i] == a[i + 1] && b[1..][i] == b[i + 1];
        }
      }
      var c := if upper then Upper(a[0]) else Lower(a[0]);
      CanonicalizeIgnoresCase(a[1..], b[1..], c == '-');
    }
  }

  /** Rewriting an already rewritten name changes nothing. */
  lemma {:induction false} CanonicalizeIdempotent(s: string, upper: bool)
    ensures Canonicalize(Canonicalize(s, upper), upper) == Canonicalize(s, upper)
  {
    if s != [] {
      var r := Canonicalize(s, upper);
      var c := r[0];
      assert (if upper then Upper(c) else Lower(c)) == c;
      assert r[1..] == Canonicalize(s[1..], c == '-');
      CanonicalizeIdempotent(s[1..], c == '-');
    }
  }

  /** Two token names that differ only in ASCII case have the same canonical form. */
  lemma {:induction false} CanonicalKeyIgnoresCase(a: string, b: string)
    requires AllTokenChars(a)
    requires EqualsIgnoreCase(a, b)
    ensures CanonicalKey(a) == CanonicalKey(b)
  {
    forall i | 0 <= i < |b| ensures IsTokenChar(b[i]) {
      SameLowerSameTokenChar(a[i], b[i]);
    }
    CanonicalizeIgnoresCase(a, b, true);
  }

  /** Canonicalising a header name twice is the same as once. */
  lemma CanonicalKeyIdempotent(name: string)
    ensures CanonicalKey(CanonicalKey(name)) == CanonicalKey(name)
  {
    if AllTokenChars(name) {
      CanonicalizeKeepsTokens(name, true);
      CanonicalizeIdempotent(name, true);
    }
  }

  /** Header lookup does not depend on the ASCII case of the name asked for. */
  lemma GetIgnoresCase(h: Header, a: string, b: string)
    requires AllTokenChars(a)
    requires EqualsIgnoreCase(a, b)
    ensures Get(h, a) == Get(h, b)
  {
    CanonicalKeyIgnoresCase(a, b);
  }

  /**
   * Lookup sees the values stored under the canonical form of the name, and
   * of those only the first: storing a list there makes its head the answer,
   * and storing no values at all makes the answer empty.
   */
  lemma GetFirstValue(h: Header, name: string, v: string, vs: seq<string>)
    ensures Get(h[CanonicalKey(name) := [v] + vs], name) == v
    ensures Get(h[CanonicalKey(name) := []], name) == ""
  {
  }

  /** Lookup sees nothing but the canonical key: changing any other key changes no answer. */
  lemma GetFrame(h: Header, name: string, k: string, vs: seq<string>)
    requires k != CanonicalKey(name)
    ensures Get(h[k := vs], name) == Get(h, name)
  {
  }

  /** Viewing two header maps as JSON objects loses nothing: equal views, equal maps. */
  lemma HeaderObjectInjective(a: Header, b: Header)
    requires HeaderObject(a) == HeaderObject(b)
    ensures a == b
  {
    assert a.Keys == HeaderObject(a).Keys == HeaderObject(b).Keys == b.Keys;
    forall k | k in a ensures a[k] == b[k] {
      assert HeaderObject(a)[k] == Arr(Strings(a[k]));
      assert HeaderObject(b)[k] == Arr(Strings(b[k]));
      assert Strings(a[k]) == Strings(b[k]);
      assert |a[k]| == |b[k]|;
      forall i | 0 <= i < |a[k]| ensures a[k][i] == b[k][i] {
        assert Strings(a[k])[i] == Str(a[k][i]);
      }
    }
  }

  /** Whether the letter at `i` starts a word: the first one does when `upper`, and so does every one after a '-'. */
  predicate StartsWord(s: string, i: nat, upper: bool)
    requires i < |s|
  {
    if i == 0 then upper else s[i - 1] == '-'
  }

  /** `s` is made of token characters already in the form `Canonicalize(s, upper)` gives. */
  predicate InCanonicalForm(s: string, upper: bool) {
    forall i :: 0 <= i < |s| ==>
      && IsTokenChar(s[i])
      && (if StartsWord(s, i, upper) then !('a' <= s[i] <= 'z') else !('A' <= s[i] <= 'Z'))
  }

  lemma {:induction false} CanonicalizeFixes(s: string, upper: bool)
    requires InCanonicalForm(s, upper)
    ensures AllTokenChars(s)
    ensures Canonicalize(s, upper) == s
  {
    if s != [] {
      var tail := s[1..];
      assert InCanonicalForm(tail, s[0] == '-') by {
        forall i | 0 <= i < |tail|
          ensures IsTokenChar(tail[i])
          ensures if StartsWord(tail, i, s[0] == '-') then !('a' <= tail[i] <= 'z') else !('A' <= tail[i] <= 'Z')
        {
          assert tail[i] == s[i + 1];
          assert StartsWord(tail, i, s[0] == '-') == StartsWord(s, i + 1, upper);
        }
      }
      CanonicalizeFixes(tail, s[0] == '-');
      assert StartsWord(s, 0, upper) == upper;
      assert s[0] == if upper then Upper(s[0]) else Lower(s[0]);
      assert Canonicalize(s, upper) == [s[0]] + Canonicalize(tail, s[0] == '-');
      assert [s[0]] + tail == s;
    }
  }

  /** A header name written in canonical form is its own canonical key. */
  lemma CanonicalName(name: string)
    requires InCanonicalForm(name, true)
    ensures CanonicalKey(name) == name
  {
    CanonicalizeFixes(name, true);
  }

  /** A capitalised word: an upper-case ASCII letter followed by lower-case ones. */
  predicate CapitalWord(w: string) {
    && |w| > 0
    && 'A' <= w[0] <= 'Z'
    && forall i :: 1 <= i < |w| ==> 'a' <= w[i] <= 'z'
  }

  /** Two capitalised words joined by '-' (such as `Content-Type`) are a canonical name. */
  lemma HyphenatedNameCanonical(a: string, b: string)
    requires CapitalWord(a) && CapitalWord(b)
    ensures CanonicalKey(a + "-" + b) == a + "-" + b
  {
    var name := a + "-" + b;
    forall i | 0 <= i < |name|
      ensures IsTokenChar(name[i])
      ensures if StartsWord(name, i, true) then !('a' <= name[i] <= 'z') else !('A' <= name[i] <= 'Z')
    {
      if i < |a| {
        assert name[i] == a[i];
        if i > 0 {
          assert name[i - 1] == a[i - 1];
        }
      } else if i == |a| {
        assert name[i] == '-';
      } else {
        assert name[i] == b[i - |a| - 1];
        assert name[i - 1] == if i == |a| + 1 then '-' else b[i - |a| - 2];
      }
    }
    CanonicalName(name);
  }
}
