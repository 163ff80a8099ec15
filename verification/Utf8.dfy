/**
 UTF-8 text without NUL bytes, by the syntax of section 4 of RFC 3629, and the character
 scans of weston/clients/editor.c.
 */
module Utf8 {
  import opened Options

  type Byte = x: int | 1 <= x < 256 witness 1
  type Text = seq<Byte>

  /** A continuation byte. */
  predicate Tail(b: Byte) { 0x80 <= b < 0xC0 }

  predicate Lead3(a: Byte, b: Byte) {
    || (a == 0xE0 && 0xA0 <= b <= 0xBF)
    || (0xE1 <= a <= 0xEC && Tail(b))
    || (a == 0xED && 0x80 <= b <= 0x9F)
    || (0xEE <= a <= 0xEF && Tail(b))
  }

  predicate Lead4(a: Byte, b: Byte) {
    || (a == 0xF0 && 0x90 <= b <= 0xBF)
    || (0xF1 <= a <= 0xF3 && Tail(b))
    || (a == 0xF4 && 0x80 <= b <= 0x8F)
  }

  /** The length of the character the text starts with, or 0. */
  function CharLen(s: Text): (n: nat)
    ensures n <= |s| && n <= 4
    ensures n > 0 ==> !Tail(s[0]) && forall k | 1 <= k < n :: Tail(s[k])
  {
    if |s| >= 1 && s[0] < 0x80 then 1
    else if |s| >= 2 && 0xC2 <= s[0] <= 0xDF && Tail(s[1]) then 2
    else if |s| >= 3 && Lead3(s[0], s[1]) && Tail(s[2]) then 3
    else if |s| >= 4 && Lead4(s[0], s[1]) && Tail(s[2]) && Tail(s[3]) then 4
    else 0
  }

  /** One character. */
  predicate OneChar(s: Text) { s != [] && CharLen(s) == |s| }

  /** The text is these characters, one after the other. */
  predicate Spells(cs: seq<Text>, s: Text) {
    if cs == [] then s == []
    else OneChar(cs[0]) && cs[0] <= s && Spells(cs[1..], s[|cs[0]|..])
  }

  ghost predicate WellFormed(s: Text) { exists cs :: Spells(cs, s) }

  /** A position between characters. */
  predicate Boundary(s: Text, i: int) { 0 <= i <= |s| && (i < |s| ==> !Tail(s[i])) }

  // ---------------------------------------------------------------- cutting and joining

  /** A text starts with the same character as any part of it that holds the character whole. */
  lemma CharOfPrefix(s: Text, i: nat, a: Text, n: nat)
    requires n == CharLen(s) && 0 < n <= i <= |s| && a == s[..i]
    ensures CharLen(a) == n
  {
    assert a[0] == s[0];
    assert n > 1 ==> a[1] == s[1];
    assert n > 2 ==> a[2] == s[2];
    assert n > 3 ==> a[3] == s[3];
  }

  lemma CharLenKept(a: Text, b: Text, s: Text)
    requires CharLen(a) > 0 && s == a + b
    ensures CharLen(s) == CharLen(a) && s[CharLen(a)..] == a[CharLen(a)..] + b
  {
    assert s[0] == a[0];
    assert |a| > 1 ==> s[1] == a[1];
    assert |a| > 2 ==> s[2] == a[2];
    assert |a| > 3 ==> s[3] == a[3];
  }

  lemma EmptyFormed()
    ensures WellFormed([])
  {
    assert Spells([], []);
  }

  /** Taking the first character off a well-formed text, and putting it back. */
  lemma FormedStart(t: Text)
    requires WellFormed(t) && t != []
    ensures CharLen(t) > 0 && WellFormed(t[CharLen(t)..])
  {
    var cs :| Spells(cs, t);
    CharLenKept(cs[0], t[|cs[0]|..], t);
    assert Spells(cs[1..], t[CharLen(t)..]);
  }

  lemma FormedStep(t: Text, n: nat, rest: Text)
    requires n == CharLen(t) && n > 0 && rest == t[n..] && WellFormed(rest)
    ensures WellFormed(t)
  {
    var cs :| Spells(cs, rest);
    CharOfPrefix(t, n, t[..n], n);
    var all := [t[..n]] + cs;
    assert all[1..] == cs;
    assert Spells(all, t);
  }

  lemma StartsChar(s: Text)
    requires WellFormed(s) && s != []
    ensures !Tail(s[0])
  {
    FormedStart(s);
  }

  /** No boundary lies inside the first character. */
  lemma BoundaryAfterChar(s: Text, i: nat, n: nat)
    requires n == CharLen(s) && Boundary(s, i) && 0 < i
    ensures n <= i
  {
    assert i < |s| ==> !Tail(s[i]);
  }

  lemma {:induction false} Split(s: Text, i: nat, a: Text, b: Text)
    requires WellFormed(s) && Boundary(s, i) && a == s[..i] && b == s[i..]
    ensures WellFormed(a) && WellFormed(b)
    decreases |s|
  {
    if i == 0 {
      EmptyFormed();
      assert a == [] && b == s;
    } else {
      var n := CharLen(s);
      FormedStart(s);
      BoundaryAfterChar(s, i, n);
      SplitRest(s, i, a, b, n, s[n..]);
      Split(s[n..], i - n, a[n..], b);
      CharOfPrefix(s, i, a, n);
      FormedStep(a, n, a[n..]);
    }
  }

  lemma SplitRest(s: Text, i: nat, a: Text, b: Text, n: nat, t: Text)
    requires 0 < n <= i <= |s| && a == s[..i] && b == s[i..] && t == s[n..] && Boundary(s, i)
    ensures a[n..] == t[..i - n] && b == t[i - n..] && Boundary(t, i - n)
  {
    assert i < |s| ==> t[i - n] == s[i];
  }

  lemma {:induction false} JoinFormed(a: Text, b: Text, s: Text)
    requires WellFormed(a) && WellFormed(b) && s == a + b
    ensures WellFormed(s)
    decreases |a|
  {
    if a == [] {
      assert s == b;
    } else {
      var n := CharLen(a);
      FormedStart(a);
      CharLenKept(a, b, s);
      JoinFormed(a[n..], b, s[n..]);
      FormedStep(s, n, s[n..]);
    }
  }

  lemma Join(a: Text, b: Text, s: Text)
    requires WellFormed(a) && WellFormed(b) && s == a + b
    ensures WellFormed(s) && Boundary(s, |a|)
  {
    JoinFormed(a, b, s);
    if b != [] {
      StartsChar(b);
      assert s[|a|] == b[0];
    }
  }

  /** Boundaries of a well-formed text are exactly the places where it can be cut into two
      well-formed texts. */
  lemma BoundaryMeans(s: Text, i: nat, a: Text, b: Text)
    requires WellFormed(s) && i <= |s| && a == s[..i] && b == s[i..]
    ensures Boundary(s, i) <==> WellFormed(a) && WellFormed(b)
  {
    if Boundary(s, i) {
      Split(s, i, a, b);
    } else if WellFormed(b) {
      StartsChar(b);
    }
  }

  // ---------------------------------------------------------------- scans

  /** Where the continuation bytes from `p` on end. */
  function EndChar(s: Text, p: nat): (e: nat)
    requires p <= |s|
    ensures p <= e <= |s| && Boundary(s, e) && forall k | p <= k < e :: Tail(s[k])
    decreases |s| - p
  {
    if p < |s| && Tail(s[p]) then EndChar(s, p + 1) else p
  }

  /** The character position after `p`; None at the end of the text. */
  function NextChar(s: Text, p: nat): (r: Option<nat>)
    requires p <= |s|
    ensures r.None? <==> p == |s|
    ensures r.Some? ==> p < r.value <= |s| && Boundary(s, r.value) && forall k | p < k < r.value :: Tail(s[k])
  {
    if p < |s| then Some(EndChar(s, p + 1)) else None
  }

  /** The character position before `p`; None if there is none. */
  function PrevChar(s: Text, p: nat): (r: Option<nat>)
    requires p <= |s|
    ensures r.None? ==> forall k | 0 <= k < p :: Tail(s[k])
    ensures r.Some? ==> r.value < p && Boundary(s, r.value) && forall k | r.value < k < p :: Tail(s[k])
  {
    if p == 0 then None
    else if !Tail(s[p - 1]) then Some(p - 1)
    else PrevChar(s, p - 1)
  }

  /** Going forward and back again returns to the start. */
  lemma PrevOfNext(s: Text, p: nat)
    requires Boundary(s, p) && p < |s|
    ensures PrevChar(s, NextChar(s, p).value) == Some(p)
  {
    var n := NextChar(s, p).value;
    var r := PrevChar(s, n);
    assert r.Some?;
    assert !Tail(s[p]) && !Tail(s[r.value]);
  }

  lemma NextAfterTails(s: Text, p: nat, n: nat)
    requires p < n <= |s| && Boundary(s, n) && forall k | p < k < n :: Tail(s[k])
    ensures NextChar(s, p) == Some(n)
  {
    var m := NextChar(s, p).value;
    assert m < |s| ==> !Tail(s[m]);
    assert n < |s| ==> !Tail(s[n]);
  }

  lemma NextAfterPrev(s: Text, p: nat)
    requires Boundary(s, p) && p > 0 && !Tail(s[0])
    ensures PrevChar(s, p).Some? && NextChar(s, PrevChar(s, p).value) == Some(p)
  {
    assert PrevChar(s, p).Some?;
    NextAfterTails(s, PrevChar(s, p).value, p);
  }

  /** Going back and forward again returns to the start; going back fails only at the start
      of the text. */
  lemma NextOfPrev(s: Text, p: nat)
    requires WellFormed(s) && Boundary(s, p)
    ensures PrevChar(s, p).None? <==> p == 0
    ensures p > 0 ==> NextChar(s, PrevChar(s, p).value) == Some(p)
  {
    if p > 0 {
      StartsChar(s);
      NextAfterPrev(s, p);
    }
  }

  lemma CharTails(s: Text, p: nat, t: Text, c: nat)
    requires p <= |s| && t == s[p..] && c == CharLen(t)
    ensures forall k | p < k < p + c :: Tail(s[k])
  {
    assert forall k | p < k < p + c :: s[k] == t[k - p];
  }

  lemma NextInRest(s: Text, p: nat, t: Text, c: nat)
    requires p <= |s| && t == s[p..] && c == CharLen(t) && c > 0 && WellFormed(t[c..])
    ensures NextChar(s, p) == Some(p + c)
  {
    CharTails(s, p, t, c);
    if p + c < |s| {
      StartsChar(t[c..]);
      assert t[c..][0] == s[p + c];
    }
    NextAfterTails(s, p, p + c);
  }

  /** In well-formed text the next position is exactly one character further. */
  lemma NextIsOneChar(s: Text, p: nat, t: Text)
    requires WellFormed(s) && Boundary(s, p) && p < |s| && t == s[p..]
    ensures NextChar(s, p) == Some(p + CharLen(t))
  {
    Split(s, p, s[..p], t);
    FormedStart(t);
    NextInRest(s, p, t, CharLen(t));
  }

  /** A single character inserted before a boundary is what lies before the new position. */
  lemma PrevOfInserted(a: Text, c: Text, b: Text)
    requires OneChar(c)
    ensures PrevChar(a + c + b, |a| + |c|) == Some(|a|)
  {
    var s := a + c + b;
    var r := PrevChar(s, |a| + |c|);
    assert forall k | 0 <= k < |c| :: s[|a| + k] == c[k];
    assert !Tail(s[|a| + 0]);
    assert r.Some?;
    assert forall k | |a| < k < |a| + |c| :: s[k] == c[k - |a|];
  }

  // ---------------------------------------------------------------- lines

  const RETURN: Byte := 13

  /** The last line end before the cursor, or the cursor itself. */
  function Up(s: Text, cursor: nat): (r: nat)
    requires cursor <= |s|
    ensures r <= cursor
    ensures r == cursor ==> forall k | 0 <= k < cursor :: s[k] != RETURN
    ensures r < cursor ==> s[r] == RETURN && forall k | r < k < cursor :: s[k] != RETURN
  {
    UpFrom(s, cursor, cursor)
  }

  function UpFrom(s: Text, cursor: nat, p: nat): (r: nat)
    requires p <= cursor <= |s| && forall k | p <= k < cursor :: s[k] != RETURN
    ensures r <= cursor
    ensures r == cursor ==> forall k | 0 <= k < cursor :: s[k] != RETURN
    ensures r < cursor ==> s[r] == RETURN && forall k | r < k < cursor :: s[k] != RETURN
  {
    if p == 0 then cursor
    else if s[p - 1] == RETURN then p - 1
    else UpFrom(s, cursor, p - 1)
  }

  /** The place after the first line end from the cursor on, or the cursor itself. */
  function Down(s: Text, cursor: nat): (r: nat)
    requires cursor <= |s|
    ensures cursor <= r <= |s|
    ensures r == cursor ==> forall k | cursor <= k < |s| :: s[k] != RETURN
    ensures r > cursor ==> s[r - 1] == RETURN && forall k | cursor <= k < r - 1 :: s[k] != RETURN
  {
    DownFrom(s, cursor, cursor)
  }

  function DownFrom(s: Text, cursor: nat, p: nat): (r: nat)
    requires cursor <= p <= |s| && forall k | cursor <= k < p :: s[k] != RETURN
    ensures cursor <= r <= |s|
    ensures r == cursor ==> forall k | cursor <= k < |s| :: s[k] != RETURN
    ensures r > cursor ==> s[r - 1] == RETURN && forall k | cursor <= k < r - 1 :: s[k] != RETURN
    decreases |s| - p
  {
    if p == |s| then cursor
    else if s[p] == RETURN then p + 1
    else DownFrom(s, cursor, p + 1)
  }

  /** After an ASCII character of well-formed text there is a boundary. */
  lemma BoundaryAfterAscii(s: Text, k: nat, t: Text)
    requires WellFormed(s) && k < |s| && s[k] < 0x80 && t == s[k..]
    ensures Boundary(s, k + 1)
  {
    Split(s, k, s[..k], t);
    FormedStart(t);
    assert t[0] == s[k] && CharLen(t) == 1;
    if k + 1 < |s| {
      StartsChar(t[1..]);
      assert t[1..][0] == s[k + 1];
    }
  }

  /** The line movements stay on boundaries. */
  lemma LinesOnBoundaries(s: Text, cursor: nat)
    requires WellFormed(s) && Boundary(s, cursor)
    ensures Boundary(s, Up(s, cursor)) && Boundary(s, Down(s, cursor))
  {
    var r := Down(s, cursor);
    if r > cursor { BoundaryAfterAscii(s, r - 1, s[r - 1..]); }
  }
}
