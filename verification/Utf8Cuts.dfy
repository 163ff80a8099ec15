/**
 What removing a range of bytes does to well-formed text: exactly when the rest is well-formed.
 */
module Utf8Cuts {
  import opened Options
  import opened Utf8

  /** What follows a well-formed beginning of a well-formed text is well-formed. */
  lemma {:induction false} Cancel(a: Text, b: Text, s: Text)
    requires WellFormed(s) && WellFormed(a) && s == a + b
    ensures WellFormed(b)
    decreases |a|
  {
    if a == [] {
      assert s == b;
    } else {
      var n := CharLen(a);
      FormedStart(a);
      FormedStart(s);
      CharLenKept(a, b, s);
      Cancel(a[n..], b, s[n..]);
    }
  }

  /** The text `c` is the beginning of a character, but not all of it. */
  predicate Unfinished(c: Text, rest: Text) { c != [] && CharLen(c + rest) > |c| }

  /** Whatever follows it, an unfinished character is not a character by itself. */
  lemma StaysUnfinished(c: Text, rest: Text, full: Text, x: Text, u: Text)
    requires Unfinished(c, rest) && full == c + rest && u == c + x
    ensures CharLen(u) == 0 || CharLen(u) > |c|
  {
    var n := CharLen(u);
    if 0 < n <= |c| {
      CharOfPrefix(u, |c|, c, n);
      CharLenKept(c, rest, full);
    }
  }

  /** No character reaches into text that does not begin with a continuation byte. */
  lemma CharStopsAt(u: Text, k: nat)
    requires Boundary(u, k) && 0 < k
    ensures CharLen(u) <= k
  {
    BoundaryAfterChar(u, k, CharLen(u));
  }

  /** An unfinished character `c`, continuation bytes `d` and well-formed text `z`. */
  lemma MendedOrNot(c: Text, rest: Text, d: Text, z: Text, u: Text)
    requires Unfinished(c, rest) && u == c + d + z && WellFormed(z) && forall k | 0 <= k < |d| :: Tail(d[k])
    ensures WellFormed(u) <==> d != [] && OneChar(c + d)
  {
    var m := |c + d|;
    assert u == c + (d + z) && u[m..] == z && u[..m] == c + d;
    if z != [] { StartsChar(z); assert u[m] == z[0]; }
    StaysUnfinished(c, rest, c + rest, d + z, u);
    CharStopsAt(u, m);
    if WellFormed(u) {
      FormedStart(u);
      var n := CharLen(u);
      if n < m { NotInside(u, n, d[n - |c|]); }
      CharOfPrefix(u, m, c + d, n);
    } else if d != [] && OneChar(c + d) {
      CharLenKept(c + d, z, u);
      FormedStep(u, m, z);
    }
  }

  /** After its first character, well-formed text does not go on with a continuation byte. */
  lemma NotInside(u: Text, n: nat, b: Byte)
    requires WellFormed(u) && n == CharLen(u) && 0 < n < |u| && u[n] == b
    ensures !Tail(b)
  {
    FormedStart(u);
    StartsChar(u[n..]);
    assert u[n..][0] == b;
  }

  /** The pieces of characters left at the two ends of a removed range make one character. */
  predicate Mends(s: Text, i: nat, n: nat)
    requires i + n <= |s|
  {
    && !Boundary(s, i) && !Boundary(s, i + n) && PrevChar(s, i).Some?
    && OneChar(s[PrevChar(s, i).value..i] + s[i + n..EndChar(s, i + n)])
  }

  /** A range that begins between characters and ends inside one. */
  lemma CutEndsInside(s: Text, i: nat, j: nat, t: Text)
    requires WellFormed(s) && i < j <= |s| && Boundary(s, i) && !Boundary(s, j) && t == s[..i] + s[j..]
    ensures !WellFormed(t)
  {
    Split(s, i, s[..i], s[i..]);
    if WellFormed(t) {
      Cancel(s[..i], s[j..], t);
      StartsChar(s[j..]);
    }
  }

  lemma Rejoined(s: Text, p: nat, i: nat)
    requires p <= i <= |s|
    ensures s[p..i] + s[i..] == s[p..]
  {
  }

  lemma InsideNext(s: Text, p: nat, i: nat, q: nat)
    requires p < i < |s| && Tail(s[i]) && (forall k | p < k < i :: Tail(s[k])) && p < q && Boundary(s, q)
    ensures i < q
  {
    assert q < |s| ==> !Tail(s[q]);
  }

  /** A position inside a character, after its start `p`. */
  lemma InsideChar(s: Text, i: nat, p: nat)
    requires WellFormed(s) && i <= |s| && !Boundary(s, i) && PrevChar(s, i) == Some(p)
    ensures Unfinished(s[p..i], s[i..])
  {
    NextIsOneChar(s, p, s[p..]);
    InsideNext(s, p, i, NextChar(s, p).value);
    Rejoined(s, p, i);
  }

  /** Inside a well-formed text there is always a character start before. */
  lemma HasStart(s: Text, i: nat)
    requires WellFormed(s) && i <= |s| && !Boundary(s, i)
    ensures PrevChar(s, i).Some?
  {
    StartsChar(s);
    assert Tail(s[i]);
  }

  lemma Regrouped(s: Text, i: nat, j: nat, p: nat, e: nat, u: Text, t: Text)
    requires p <= i <= j <= e <= |s| && u == s[p..i] + s[j..e] + s[e..] && t == s[..i] + s[j..]
    ensures t == s[..p] + u
  {
    assert s[..i] == s[..p] + s[p..i];
    assert s[j..] == s[j..e] + s[e..];
  }

  lemma TailsOf(s: Text, j: nat, e: nat, d: Text)
    requires j <= |s| && e == EndChar(s, j) && d == s[j..e]
    ensures forall k | 0 <= k < |d| :: Tail(d[k])
  {
    assert forall k | 0 <= k < |d| :: d[k] == s[j + k];
  }

  lemma CutBeginsInside(s: Text, i: nat, j: nat, p: nat, e: nat, t: Text)
    requires WellFormed(s) && i < j <= |s| && !Boundary(s, i) && PrevChar(s, i) == Some(p) && e == EndChar(s, j)
    requires t == s[..i] + s[j..]
    ensures WellFormed(t) <==> j < e && OneChar(s[p..i] + s[j..e])
  {
    var u := s[p..i] + s[j..e] + s[e..];
    Regrouped(s, i, j, p, e, u, t);
    Split(s, p, s[..p], s[p..]);
    Split(s, e, s[..e], s[e..]);
    InsideChar(s, i, p);
    TailsOf(s, j, e, s[j..e]);
    MendedOrNot(s[p..i], s[i..], s[j..e], s[e..], u);
    BeforeFormed(s[..p], u, t);
  }

  /** Well-formed text in front makes no difference. */
  lemma BeforeFormed(a: Text, u: Text, t: Text)
    requires WellFormed(a) && t == a + u
    ensures WellFormed(t) <==> WellFormed(u)
  {
    if WellFormed(t) { Cancel(a, u, t); }
    if WellFormed(u) { JoinFormed(a, u, t); }
  }

  lemma CutBetween(s: Text, i: nat, j: nat, t: Text)
    requires WellFormed(s) && i <= j <= |s| && Boundary(s, i) && Boundary(s, j) && t == s[..i] + s[j..]
    ensures WellFormed(t)
  {
    Split(s, i, s[..i], s[i..]);
    Split(s, j, s[..j], s[j..]);
    JoinFormed(s[..i], s[j..], t);
  }

  lemma CutMends(s: Text, i: nat, n: nat, p: nat, e: nat, t: Text)
    requires WellFormed(s) && 0 < n && i + n <= |s| && !Boundary(s, i) && t == s[..i] + s[i + n..]
    requires PrevChar(s, i) == Some(p) && e == EndChar(s, i + n)
    ensures WellFormed(t) <==> Mends(s, i, n)
  {
    CutBeginsInside(s, i, i + n, p, e, t);
    assert i + n < e <==> !Boundary(s, i + n);
  }

  /** Removing a range from well-formed text leaves well-formed text if and only if the range
      begins and ends between characters, or the pieces left at its ends make one character. */
  lemma CutFormed(s: Text, i: nat, n: nat, t: Text)
    requires WellFormed(s) && 0 < n && i + n <= |s| && t == s[..i] + s[i + n..]
    ensures WellFormed(t) <==> (Boundary(s, i) && Boundary(s, i + n)) || Mends(s, i, n)
  {
    if !Boundary(s, i) {
      HasStart(s, i);
      CutMends(s, i, n, PrevChar(s, i).value, EndChar(s, i + n), t);
    } else if Boundary(s, i + n) {
      CutBetween(s, i, i + n, t);
    } else {
      CutEndsInside(s, i, i + n, t);
    }
  }
}
