/**
 * Go's `strings.TrimSpace`: remove leading and trailing white space, where
 * white space is what Go's `unicode.IsSpace` accepts.
 */
module Strings {

  /** Go's `unicode.IsSpace`: the ASCII white space, NEL, NBSP and Unicode's space separators. */
  predicate IsSpace(c: char) {
    c == ' ' || ('\t' <= c <= '\r') || c == '\U{85}' || c == '\U{A0}' || c == '\U{1680}'
    || ('\U{2000}' <= c <= '\U{200A}') || c == '\U{2028}' || c == '\U{2029}'
    || c == '\U{202F}' || c == '\U{205F}' || c == '\U{3000}'
  }

  predicate AllSpace(s: string) {
    forall k :: 0 <= k < |s| ==> IsSpace(s[k])
  }

  /** Neither the first nor the last character of `s` is white space. */
  predicate Unpadded(s: string) {
    s == [] || (!IsSpace(s[0]) && !IsSpace(s[|s| - 1]))
  }

  /** Strips white space from the front, then from the back, one character at a time. */
  function TrimSpace(s: string): (r: string)
    ensures |r| <= |s|
    ensures Unpadded(r)
    decreases |s|
  {
    if s != [] && IsSpace(s[0]) then TrimSpace(s[1..])
    else if s != [] && IsSpace(s[|s| - 1]) then TrimSpace(s[..|s| - 1])
    else s
  }

  lemma SpaceEnds(a: string)
    requires a != [] && AllSpace(a)
    ensures IsSpace(a[0]) && AllSpace(a[1..])
    ensures IsSpace(a[|a| - 1]) && AllSpace(a[..|a| - 1])
  {
    assert forall k :: 0 <= k < |a| - 1 ==> a[1..][k] == a[k + 1] && a[..|a| - 1][k] == a[k];
  }

  lemma DropFirst(a: string, b: string, c: string)
    requires a != []
    ensures (a + b + c)[0] == a[0] && (a + b + c)[1..] == a[1..] + b + c
  {
  }

  lemma DropLast(b: string, c: string)
    requires c != []
    ensures (b + c)[|b + c| - 1] == c[|c| - 1] && (b + c)[..|b + c| - 1] == b + c[..|c| - 1]
  {
  }

  /** With no leading white space, trailing white space is stripped one character at a time. */
  lemma {:induction false} TrimSpaceUniqueBack(m: string, post: string)
    requires AllSpace(post) && Unpadded(m)
    ensures TrimSpace(m + post) == m
    decreases |post|
  {
    if post == [] {
      assert m + post == m;
    } else if m == [] {
      assert m + post == post;
      SpaceEnds(post);
      assert m + post[1..] == post[1..];
      TrimSpaceUniqueBack(m, post[1..]);
    } else {
      assert (m + post)[0] == m[0];
      SpaceEnds(post);
      DropLast(m, post);
      TrimSpaceUniqueBack(m, post[..|post| - 1]);
    }
  }

  /**
   * TrimSpace(s) is the one core `m` with s == pre + m + post, where `pre` and
   * `post` are white space and `m` does not start or end with white space.
   */
  lemma {:induction false} TrimSpaceUnique(pre: string, m: string, post: string)
    requires AllSpace(pre) && AllSpace(post) && Unpadded(m)
    ensures TrimSpace(pre + m + post) == m
    decreases |pre|
  {
    if pre == [] {
      assert pre + m + post == m + post;
      TrimSpaceUniqueBack(m, post);
    } else {
      SpaceEnds(pre);
      DropFirst(pre, m, post);
      TrimSpaceUnique(pre[1..], m, post);
    }
  }

  /** `s` splits into its leading white space, its trimmed core and its trailing white space. */
  lemma {:induction false} TrimSpaceSplit(s: string) returns (pre: string, post: string)
    ensures AllSpace(pre) && AllSpace(post)
    ensures s == pre + TrimSpace(s) + post
    decreases |s|
  {
    if s != [] && IsSpace(s[0]) {
      var p, q := TrimSpaceSplit(s[1..]);
      var m := TrimSpace(s[1..]);
      AllSpaceConcat([s[0]], p);
      pre, post := [s[0]] + p, q;
      assert TrimSpace(s) == m;
      assert s == [s[0]] + s[1..];
      Assoc([s[0]], p, m, q);
    } else if s != [] && IsSpace(s[|s| - 1]) {
      var p, q := TrimSpaceSplit(s[..|s| - 1]);
      var m := TrimSpace(s[..|s| - 1]);
      AllSpaceConcat(q, [s[|s| - 1]]);
      pre, post := p, q + [s[|s| - 1]];
      assert TrimSpace(s) == m;
      assert s == s[..|s| - 1] + [s[|s| - 1]];
      Assoc(p, m, q, [s[|s| - 1]]);
    } else {
      pre, post := [], [];
      assert s == [] + s + [];
    }
  }

  lemma Assoc(a: string, b: string, c: string, d: string)
    ensures a + (b + c + d) == (a + b) + c + d
    ensures (a + b + c) + d == a + b + (c + d)
  {
  }

  lemma AllSpaceConcat(a: string, b: string)
    requires AllSpace(a) && AllSpace(b)
    ensures AllSpace(a + b)
  {
    forall k | 0 <= k < |a + b| ensures IsSpace((a + b)[k]) {
      if k < |a| { assert (a + b)[k] == a[k]; } else { assert (a + b)[k] == b[k - |a|]; }
    }
  }

  lemma Regroup(a: string, b: string, c: string, d: string, e: string)
    ensures a + (b + c + d) + e == (a + b) + c + (d + e)
  {
  }

  /** White space around a string never changes what it trims to. */
  lemma TrimSpacePadded(pre: string, s: string, post: string)
    requires AllSpace(pre) && AllSpace(post)
    ensures TrimSpace(pre + s + post) == TrimSpace(s)
  {
    var p, q := TrimSpaceSplit(s);
    var m := TrimSpace(s);
    AllSpaceConcat(pre, p);
    AllSpaceConcat(q, post);
    Regroup(pre, p, m, q, post);
    TrimSpaceUnique(pre + p, m, q + post);
  }

  /** Trimming twice is trimming once. */
  lemma TrimSpaceIdempotent(s: string)
    ensures TrimSpace(TrimSpace(s)) == TrimSpace(s)
  {
    var m := TrimSpace(s);
    assert [] + m + [] == m;
    TrimSpaceUnique([], m, []);
  }
}
