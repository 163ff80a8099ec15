/**
 NUL-terminated strings in byte arrays: the C library calls that the text entry of
 weston/clients/editor.c makes on them.  Every index is checked to be in range.
 */
module CStrings {
  import opened Options
  import opened Utf8

  type Raw = x: int | 0 <= x < 256

  /** The array holds the string `s` from position `at` on, and its terminating NUL. */
  ghost predicate HoldsAt(a: array<Raw>, at: nat, s: Text)
    reads a
  {
    at + |s| < a.Length && a[at + |s|] == 0 && forall k | at <= k < at + |s| :: a[k] == s[k - at]
  }

  ghost predicate Holds(a: array<Raw>, s: Text)
    reads a
  {
    HoldsAt(a, 0, s)
  }

  /** The first NUL ends the string. */
  lemma NulAtEnd(a: array<Raw>, at: nat, s: Text, n: nat)
    requires HoldsAt(a, at, s) && n <= |s|
    ensures a[at + n] == 0 <==> n == |s|
  {
    if n < |s| { assert a[at + n] == s[n]; }
  }

  /** strlen of the string that starts at `from`. */
  method StrLen(a: array<Raw>, from: nat, ghost s: Text) returns (n: nat)
    requires HoldsAt(a, from, s)
    ensures n == |s|
  {
    n := 0;
    while a[from + n] != 0
      invariant n <= |s|
      decreases |s| - n
    {
      n := n + 1;
    }
    NulAtEnd(a, from, s, n);
  }

  /** strncpy of `n` bytes to the start of another array: bytes up to a NUL, then NULs. */
  method StrNCpy(dst: array<Raw>, src: array<Raw>, n: nat, ghost s: Text)
    requires Holds(src, s) && n <= dst.Length && dst != src
    modifies dst
    ensures forall i | 0 <= i < n :: dst[i] == if i < |s| then s[i] else 0
    ensures forall i | n <= i < dst.Length :: dst[i] == old(dst[i])
  {
    var ended := false;
    for i := 0 to n
      invariant ended <==> i > |s|
      invariant forall k | 0 <= k < i :: dst[k] == if k < |s| then s[k] else 0
      invariant forall k | i <= k < dst.Length :: dst[k] == old(dst[k])
    {
      assert i < |s| ==> src[i] == s[i];
      if !ended && src[i] == 0 {
        ended := true;
      }
      dst[i] := if ended then 0 else src[i];
    }
  }

  /** strcpy of the string at `from` to position `at` of another array. */
  method StrCpy(dst: array<Raw>, at: nat, src: array<Raw>, from: nat, ghost s: Text)
    requires HoldsAt(src, from, s) && at + |s| < dst.Length && dst != src
    modifies dst
    ensures HoldsAt(dst, at, s)
    ensures forall i | 0 <= i < dst.Length && (i < at || i > at + |s|) :: dst[i] == old(dst[i])
  {
    var n := 0;
    while src[from + n] != 0
      invariant n <= |s|
      invariant forall k | at <= k < at + n :: dst[k] == s[k - at]
      invariant forall i | 0 <= i < dst.Length && (i < at || i >= at + n) :: dst[i] == old(dst[i])
      decreases |s| - n
    {
      assert n < |s| && src[from + n] == s[n];
      dst[at + n] := src[from + n];
      n := n + 1;
    }
    NulAtEnd(src, from, s, n);
    dst[at + n] := 0;
  }

  /** memmove of `n` bytes towards the start of the same array. */
  method MemMove(a: array<Raw>, to: nat, from: nat, n: nat)
    requires to <= from && from + n <= a.Length
    modifies a
    ensures forall k | to <= k < to + n :: a[k] == old(a[k + from - to])
    ensures forall i | 0 <= i < a.Length && (i < to || i >= to + n) :: a[i] == old(a[i])
  {
    for i := 0 to n
      invariant forall k | to <= k < to + i :: a[k] == old(a[k + from - to])
      invariant forall k | 0 <= k < a.Length && (k < to || k >= to + i) :: a[k] == old(a[k])
    {
      a[to + i] := a[from + i];
    }
  }

  /** A string in memory of its own. */
  method StrDup(s: Text) returns (a: array<Raw>)
    ensures fresh(a) && Holds(a, s)
  {
    a := new Raw[|s| + 1];
    for i := 0 to |s|
      invariant forall k | 0 <= k < i :: a[k] == s[k]
    {
      a[i] := s[i];
    }
    a[|s|] := 0;
  }

  // ---------------------------------------------------------------- insertion and deletion

  /** A new buffer with `t` inserted at the cursor, copied in three pieces. */
  method Splice(text: array<Raw>, cursor: nat, t: array<Raw>, ghost c: Text, ghost s: Text)
    returns (newText: array<Raw>)
    requires Holds(text, c) && cursor <= |c| && Holds(t, s)
    ensures fresh(newText) && Holds(newText, c[..cursor] + s + c[cursor..])
  {
    var length := StrLen(text, 0, c);
    var added := StrLen(t, 0, s);
    newText := new Raw[length + added + 1];
    StrNCpy(newText, text, cursor, c);
    StrCpy(newText, cursor, t, 0, s);
    assert HoldsAt(text, cursor, c[cursor..]);
    StrCpy(newText, cursor + added, text, cursor, c[cursor..]);
    Pieces(newText, cursor, cursor + added, c[..cursor], s, c[cursor..]);
  }

  lemma Pieces(a: array<Raw>, p: nat, q: nat, x: Text, y: Text, z: Text)
    requires p == |x| && q == p + |y| && HoldsAt(a, q, z)
    requires forall k | 0 <= k < p :: a[k] == x[k]
    requires forall k | p <= k < q :: a[k] == y[k - p]
    ensures Holds(a, x + y + z)
  {
  }

  /** Moving a string, with its NUL, towards the start of its buffer. */
  method MoveTail(a: array<Raw>, to: nat, from: nat, ghost tail: Text)
    requires HoldsAt(a, from, tail) && to <= from
    modifies a
    ensures HoldsAt(a, to, tail) && forall k | 0 <= k < to :: a[k] == old(a[k])
  {
    var l := StrLen(a, from, tail);
    MemMove(a, to, from, l + 1);
    assert a[to + l] == old(a[to + l + from - to]);
    forall k | to <= k < to + l ensures a[k] == tail[k - to] {
      assert a[k] == old(a[k + from - to]);
    }
  }

  lemma HeadAndTail(a: array<Raw>, p: nat, x: Text, z: Text, s: Text)
    requires p == |x| && HoldsAt(a, p, z) && s == x + z && forall k | 0 <= k < p :: a[k] == x[k]
    ensures Holds(a, s)
  {
  }

  /** The range removed by moving the tail over it. */
  method Remove(text: array<Raw>, index: nat, length: nat, ghost c: Text)
    requires Holds(text, c) && index + length <= |c|
    modifies text
    ensures Holds(text, c[..index] + c[index + length..])
  {
    ghost var head, tail := c[..index], c[index + length..];
    assert HoldsAt(text, index + length, tail);
    assert forall k | 0 <= k < index :: text[k] == head[k];
    MoveTail(text, index, index + length, tail);
    HeadAndTail(text, index, head, tail, head + tail);
  }

  // ---------------------------------------------------------------- character scans

  predicate Continues(b: Raw) { 0x80 <= b < 0xC0 }

  method Utf8EndChar(a: array<Raw>, p0: nat, ghost s: Text) returns (p: nat)
    requires Holds(a, s) && p0 <= |s|
    ensures p == EndChar(s, p0)
  {
    p := p0;
    while Continues(a[p])
      invariant p0 <= p <= |s| && EndChar(s, p0) == EndChar(s, p)
      decreases |s| - p
    {
      assert p < |s| && a[p] == s[p];
      p := p + 1;
    }
    assert p < |s| ==> a[p] == s[p];
  }

  method Utf8PrevChar(a: array<Raw>, p0: nat, ghost s: Text) returns (r: Option<nat>)
    requires Holds(a, s) && p0 <= |s|
    ensures r == PrevChar(s, p0)
  {
    var p := p0 - 1;
    while p >= 0
      invariant -1 <= p < p0 && PrevChar(s, p0) == PrevChar(s, p + 1)
    {
      assert a[p] == s[p];
      if !Continues(a[p]) {
        return Some(p);
      }
      p := p - 1;
    }
    return None;
  }

  method Utf8NextChar(a: array<Raw>, p: nat, ghost s: Text) returns (r: Option<nat>)
    requires Holds(a, s) && p <= |s|
    ensures r == NextChar(s, p)
  {
    assert p < |s| ==> a[p] == s[p];
    if a[p] != 0 {
      var e := Utf8EndChar(a, p + 1, s);
      return Some(e);
    }
    return None;
  }

  // ---------------------------------------------------------------- lines

  /** strstr for a line end: the first one at or after `from`. */
  method FindReturn(a: array<Raw>, from: nat, ghost s: Text) returns (r: Option<nat>)
    requires Holds(a, s) && from <= |s|
    ensures r.Some? ==> from <= r.value < |s| && s[r.value] == RETURN
    ensures r.Some? ==> forall k | from <= k < r.value :: s[k] != RETURN
    ensures r.None? ==> forall k | from <= k < |s| :: s[k] != RETURN
  {
    var i := from;
    while a[i] != 0
      invariant from <= i <= |s| && forall k | from <= k < i :: s[k] != RETURN
      decreases |s| - i
    {
      assert i < |s| && a[i] == s[i];
      if a[i] == RETURN {
        return Some(i);
      }
      i := i + 1;
    }
    NulAtEnd(a, 0, s, i);
    return None;
  }

  /** move_up: the loop over all line ends finds the last one before the cursor. */
  method MoveUp(a: array<Raw>, cursor: nat, ghost s: Text) returns (r: nat)
    requires Holds(a, s) && cursor <= |s|
    ensures r == Up(s, cursor)
  {
    r := cursor;
    var posr := FindReturn(a, 0, s);
    while posr.Some?
      invariant r == cursor
      invariant posr.Some? ==> posr.value < |s| && s[posr.value] == RETURN
      invariant posr.None? ==> forall k | 0 <= k < cursor :: s[k] != RETURN
      invariant posr.Some? && posr.value >= cursor ==> forall k | 0 <= k < cursor :: s[k] != RETURN
      decreases if posr.Some? then |s| - posr.value else 0
    {
      if cursor <= posr.value {
        break;
      }
      var next := FindReturn(a, posr.value + 1, s);
      if next.None? || cursor <= next.value {
        r := posr.value;
        break;
      }
      posr := next;
    }
  }

  /** move_down */
  method MoveDown(a: array<Raw>, cursor: nat, ghost s: Text) returns (r: nat)
    requires Holds(a, s) && cursor <= |s|
    ensures r == Down(s, cursor)
  {
    r := cursor;
    var posr := FindReturn(a, 0, s);
    while posr.Some?
      invariant r == cursor
      invariant posr.Some? ==> posr.value < |s| && s[posr.value] == RETURN
      invariant posr.Some? ==> forall k | cursor <= k < posr.value :: s[k] != RETURN
      invariant posr.None? ==> forall k | cursor <= k < |s| :: s[k] != RETURN
      decreases if posr.Some? then |s| - posr.value else 0
    {
      if cursor <= posr.value {
        r := posr.value + 1;
        break;
      }
      posr := FindReturn(a, posr.value + 1, s);
    }
  }
}
