/**
 The text entry of weston/clients/editor.c: a byte string with a cursor and an anchor, edited
 by keys, by the input method and by cut and paste.  Strings inserted come with zero cursor
 and anchor offsets.
 */
module TextEntry {
  import opened Options
  import opened Utf8
  import opened Utf8Cuts

  const WORD: int := 0x1_0000_0000

  /** pending_commit: a deletion announced by the input method. */
  datatype Pending = Pending(index: nat, length: nat, invalid: bool)

  /** `updates` and `resetAt` count the states committed to the input method so far, and up to
      the last reset; the source keeps both modulo 2^32. */
  datatype Entry = Entry(
    text: Text,
    cursor: nat,
    anchor: nat,
    commit: Option<Text>,
    pending: Pending,
    updates: nat,
    resetAt: nat)

  const NO_PENDING: Pending := Pending(0, 0, false)

  // ---------------------------------------------------------------- editing

  predicate Placed(e: Entry) { e.cursor <= |e.text| && e.anchor <= |e.text| }

  function Insert(e: Entry, t: Text): (r: Entry)
    requires Placed(e)
    ensures Placed(r)
  {
    e.(text := e.text[..e.cursor] + t + e.text[e.cursor..],
       cursor := e.cursor + |t|, anchor := e.cursor + |t|, updates := e.updates + 1)
  }

  /** Where a position ends up when the range from `i` on is deleted. */
  function Shifted(p: nat, i: nat, n: nat): (q: nat) {
    if p > i + n then p - n else if p > i then i else p
  }

  /** The assertions in text_entry_delete_text. */
  predicate CanDelete(e: Entry, i: nat, n: nat) { i + n <= |e.text| }

  function Delete(e: Entry, i: nat, n: nat): (r: Entry)
    requires Placed(e) && CanDelete(e, i, n)
    ensures Placed(r)
  {
    var c := Shifted(e.cursor, i, n);
    e.(text := e.text[..i] + e.text[i + n..], cursor := c, anchor := c, updates := e.updates + 1)
  }

  function Low(e: Entry): nat { if e.anchor < e.cursor then e.anchor else e.cursor }
  function High(e: Entry): nat { if e.anchor < e.cursor then e.cursor else e.anchor }

  /** text_entry_delete_selected_text, and the deletion in a cut. */
  function DeleteSelected(e: Entry): (r: Entry)
    requires Placed(e)
    ensures Placed(r)
  {
    if e.anchor == e.cursor then e else Delete(e, Low(e), High(e) - Low(e))
  }

  function CommitAndReset(e: Entry): (r: Entry)
    requires Placed(e)
    ensures Placed(r)
  {
    var a := if e.commit.Some? then Insert(e.(commit := None), e.commit.value) else e;
    a.(updates := a.updates + 1, resetAt := a.updates + 1)
  }

  /** Deleting the character before the cursor: the range up to the cursor. */
  function DeletePrev(a: Entry): (r: Entry)
    requires Placed(a)
    ensures Placed(r)
  {
    var s := PrevChar(a.text, a.cursor);
    if s.None? then a else Delete(a, s.value, a.cursor - s.value)
  }

  /** Deleting the character after the cursor. */
  function DeleteNext(a: Entry): (r: Entry)
    requires Placed(a)
    ensures Placed(r)
  {
    var n := NextChar(a.text, a.cursor);
    if n.None? then a else Delete(a, a.cursor, n.value - a.cursor)
  }

  /** BackSpace and Delete as key_handler does them. */
  function KeyBackSpace(e: Entry): (r: Entry)
    requires Placed(e)
    ensures Placed(r)
  {
    DeletePrev(CommitAndReset(e))
  }

  function KeyDelete(e: Entry): (r: Entry)
    requires Placed(e)
    ensures Placed(r)
  {
    DeleteNext(CommitAndReset(e))
  }

  /** BackSpace as text_input_keysym does it: the range up to the next character. */
  function SymBackSpace(e: Entry): (r: Entry)
    requires Placed(e)
    ensures Placed(r)
  {
    var a := CommitAndReset(e);
    var s := PrevChar(a.text, a.cursor);
    if s.None? then a else Delete(a, s.value, NextChar(a.text, s.value).value - s.value)
  }

  datatype Arrow = ToLeft | ToRight | ToUp | ToDown

  function Target(e: Entry, w: Arrow): (r: Option<nat>)
    requires Placed(e)
    ensures r.Some? ==> r.value <= |e.text|
  {
    match w
    case ToLeft => PrevChar(e.text, e.cursor)
    case ToRight => NextChar(e.text, e.cursor)
    case ToUp => Some(Up(e.text, e.cursor))
    case ToDown => Some(Down(e.text, e.cursor))
  }

  /** An arrow key in key_handler. */
  function KeyArrow(e: Entry, w: Arrow, shift: bool): (r: Entry)
    requires Placed(e)
    ensures Placed(r)
  {
    var a := CommitAndReset(e);
    var t := Target(a, w);
    if t.None? then a else a.(cursor := t.value, anchor := if shift then a.anchor else t.value)
  }

  /** An arrow in text_input_keysym: no reset, and the anchor moves even at the ends. */
  function SymArrow(e: Entry, w: Arrow, shift: bool): (r: Entry)
    requires Placed(e)
    ensures Placed(r)
  {
    var t := Target(e, w);
    var c := if t.Some? then t.value else e.cursor;
    e.(cursor := c, anchor := if shift then e.anchor else c)
  }

  // ---------------------------------------------------------------- the input method

  /** The comparison of 32-bit serials. */
  predicate Stale(e: Entry, serial: nat) { (e.updates - serial) % WORD > (e.updates - e.resetAt) % WORD }

  /** text_input_delete_surrounding_text: the arithmetic is that of 32-bit words. */
  function DeleteSurrounding(e: Entry, index: int, length: nat): (r: Entry) {
    var i := (e.cursor + index) % WORD;
    var bad := i > |e.text| || length > |e.text| || (i + length) % WORD > |e.text|;
    e.(pending := Pending(i, length, bad))
  }

  /** A reply of the input method that will be applied. */
  predicate Applies(e: Entry, serial: nat) { !Stale(e, serial) && !e.pending.invalid }

  /** What a commit or preedit string replaces: the announced range, or the selection. */
  predicate CanReplace(e: Entry) { e.pending.length > 0 ==> CanDelete(e, e.pending.index, e.pending.length) }
  function Replaced(e: Entry): (r: Entry)
    requires Placed(e) && CanReplace(e)
    ensures Placed(r)
  {
    if e.pending.length > 0 then Delete(e, e.pending.index, e.pending.length) else DeleteSelected(e)
  }

  /** text_input_commit_string; None where an assertion in the deletion fails. */
  function CommitString(e: Entry, serial: nat, t: Text): (r: Option<Entry>)
    requires Placed(e)
    ensures r.Some? ==> Placed(r.value)
  {
    if Stale(e, serial) then Some(e)
    else if e.pending.invalid then Some(e.(pending := NO_PENDING))
    else if !CanReplace(e) then None
    else Some(Insert(Replaced(e.(commit := None)), t).(pending := NO_PENDING))
  }

  /** text_input_preedit_string: the text to commit if the preedit ends early. */
  function PreeditString(e: Entry, serial: nat, commit: Text): (r: Option<Entry>)
    requires Placed(e)
    ensures r.Some? ==> Placed(r.value)
  {
    if !Applies(e, serial) then Some(e.(pending := NO_PENDING))
    else if !CanReplace(e) then None
    else var a := Replaced(e); Some(a.(commit := Some(commit), pending := NO_PENDING, updates := a.updates + 1))
  }

  // ---------------------------------------------------------------- runs

  datatype Event =
    | Typed(t: Text)
    | BackSpaceKey
    | DeleteKey
    | ArrowKey(w: Arrow, shift: bool)
    | BackSpaceSym
    | ArrowSym(w: Arrow, shift: bool)
    | Inserted(t: Text)
    | Cut
    | Announced(index: int, length: nat)
    | Committed(serial: nat, t: Text)
    | Preedited(serial: nat, commit: Text)

  /** One event; None where the client aborts. */
  function Handle(e: Entry, v: Event): (r: Option<Entry>)
    requires Placed(e)
    ensures r.Some? ==> Placed(r.value)
  {
    match v
    case Typed(t) => Some(Insert(CommitAndReset(e), t))
    case BackSpaceKey => Some(KeyBackSpace(e))
    case DeleteKey => Some(KeyDelete(e))
    case ArrowKey(w, shift) => Some(KeyArrow(e, w, shift))
    case BackSpaceSym => Some(SymBackSpace(e))
    case ArrowSym(w, shift) => Some(SymArrow(e, w, shift))
    case Inserted(t) => Some(Insert(e, t))
    case Cut => Some(DeleteSelected(e))
    case Announced(index, length) => Some(DeleteSurrounding(e, index, length))
    case Committed(serial, t) => CommitString(e, serial, t)
    case Preedited(serial, commit) => PreeditString(e, serial, commit)
  }

  function Empty(): Entry { Entry([], 0, 0, None, NO_PENDING, 0, 0) }

  /** The entry after some events, unless the client has aborted. */
  function Run(vs: seq<Event>): (r: Option<Entry>)
    ensures r.Some? ==> Placed(r.value)
  {
    if vs == [] then Some(Empty())
    else match Run(vs[..|vs| - 1])
      case None => None
      case Some(e) => Handle(e, vs[|vs| - 1])
  }

  // ---------------------------------------------------------------- aborting

  /** A commit or preedit that applies, with an announced range that no longer fits the text. */
  predicate Outdated(e: Entry, v: Event) {
    && (v.Committed? || v.Preedited?) && Applies(e, v.serial)
    && e.pending.length > 0 && e.pending.index + e.pending.length > |e.text|
  }

  /** Event `i` of the run finds the client running and is such a commit or preedit. */
  predicate AbortsAt(vs: seq<Event>, i: nat) {
    i < |vs| && Run(vs[..i]).Some? && Outdated(Run(vs[..i]).value, vs[i])
  }

  lemma AbortInPrefix(vs: seq<Event>, n: nat, before: seq<Event>, i: nat)
    requires i < n <= |vs| && before == vs[..n]
    ensures AbortsAt(vs, i) <==> AbortsAt(before, i)
  {
    assert before[..i] == vs[..i];
  }

  lemma {:induction false} AbortFound(vs: seq<Event>) returns (i: nat)
    requires Run(vs).None?
    ensures AbortsAt(vs, i)
  {
    var n := |vs| - 1;
    if Run(vs[..n]).None? {
      i := AbortFound(vs[..n]);
      AbortInPrefix(vs, n, vs[..n], i);
    } else {
      i := n;
      HandleAborts(Run(vs[..n]).value, vs[n]);
    }
  }

  /** After an abort nothing runs any more. */
  lemma {:induction false} AbortStays(vs: seq<Event>, n: nat, before: seq<Event>)
    requires n <= |vs| && before == vs[..n] && Run(before).None?
    ensures Run(vs).None?
  {
    if n == |vs| {
      assert before == vs;
    } else {
      var most := vs[..|vs| - 1];
      assert most[..n] == before;
      AbortStays(most, n, before);
    }
  }

  lemma AbortsThere(vs: seq<Event>, i: nat, before: seq<Event>, all: seq<Event>)
    requires AbortsAt(vs, i) && before == vs[..i] && all == vs[..i + 1]
    ensures Run(all).None?
  {
    assert all == before + [vs[i]];
    Ran(before, vs[i], all);
    HandleAborts(Run(before).value, vs[i]);
  }

  /** The client aborts, in an assertion of delete_text, if and only if some commit or preedit
      of the run applies when the range announced before it no longer fits the text. */
  lemma AbortsIf(vs: seq<Event>)
    ensures Run(vs).None? <==> exists i: nat :: AbortsAt(vs, i)
  {
    if Run(vs).None? {
      var i := AbortFound(vs);
    } else {
      forall i: nat ensures !AbortsAt(vs, i) {
        if AbortsAt(vs, i) {
          AbortsThere(vs, i, vs[..i], vs[..i + 1]);
          AbortStays(vs, i + 1, vs[..i + 1]);
        }
      }
    }
  }

  lemma HandleAborts(e: Entry, v: Event)
    requires Placed(e)
    ensures Handle(e, v).None? <==> Outdated(e, v)
  {
  }

  /** A text of two ASCII characters, after announcing its deletion and pressing BackSpace. */
  lemma BackSpaceAfterAnnouncing(e: Entry, x: Byte, y: Byte)
    requires e.text == [x, y] && e.cursor == 2 && e.anchor == 2 && e.commit.None? && x < 0x80 && y < 0x80
    ensures var f := KeyBackSpace(DeleteSurrounding(e, -2, 2));
            && f.text == [x] && f.pending == Pending(0, 2, false)
            && f.updates == e.updates + 2 && f.resetAt == e.updates + 1
  {
    assert PrevChar([x, y], 2) == Some(1);
    assert [x, y][..1] + [x, y][2..] == [x];
  }

  /** The remembered range survives other edits: announcing, BackSpace and a commit abort. */
  lemma AbortHappens(x: Byte, y: Byte)
    requires x < 0x80 && y < 0x80
    ensures Run([Inserted([x, y]), Announced(-2, 2), BackSpaceKey, Committed(3, [])]).None?
  {
    var v1, v2, v3, v4 := Inserted([x, y]), Announced(-2, 2), BackSpaceKey, Committed(3, []);
    var e1 := Insert(Empty(), [x, y]);
    assert e1.text == [x, y];
    BackSpaceAfterAnnouncing(e1, x, y);
    Ran([], v1, [v1]);
    Ran([v1], v2, [v1, v2]);
    Ran([v1, v2], v3, [v1, v2, v3]);
    Ran([v1, v2, v3], v4, [v1, v2, v3, v4]);
    HandleAborts(KeyBackSpace(DeleteSurrounding(e1, -2, 2)), v4);
  }

  lemma Ran(vs: seq<Event>, v: Event, all: seq<Event>)
    requires all == vs + [v] && Run(vs).Some?
    ensures Run(all) == Handle(Run(vs).value, v)
  {
    assert all[..|all| - 1] == vs;
  }

  // ---------------------------------------------------------------- the invariant

  /** Well-formed text, cursor and anchor between characters. */
  ghost predicate Good(e: Entry) {
    && WellFormed(e.text) && Boundary(e.text, e.cursor) && Boundary(e.text, e.anchor)
    && (e.commit.Some? ==> WellFormed(e.commit.value))
  }

  lemma InsertGood(e: Entry, t: Text)
    requires Good(e) && WellFormed(t)
    ensures Good(Insert(e, t))
  {
    var a, b := e.text[..e.cursor], e.text[e.cursor..];
    Split(e.text, e.cursor, a, b);
    Joined(a, t, b, Insert(e, t).text);
  }

  lemma Joined(a: Text, t: Text, b: Text, s: Text)
    requires WellFormed(a) && WellFormed(t) && WellFormed(b) && s == a + t + b
    ensures WellFormed(s) && Boundary(s, |a| + |t|)
  {
    JoinFormed(a, t, a + t);
    Join(a + t, b, s);
  }

  /** A position outside a removed range, or at its start, shows the same byte as before. */
  lemma ShiftedByte(s: Text, p: nat, i: nat, n: nat, t: Text)
    requires i + n <= |s| && p <= |s| && t == s[..i] + s[i + n..] && !(i < p < i + n)
    ensures var q := Shifted(p, i, n); q <= |t| && (q < |t| ==> p != i ==> p < |s| && t[q] == s[p])
  {
    var q := Shifted(p, i, n);
    assert q < |t| ==> t[q] == if q < i then s[q] else s[q + n];
  }

  /** The start of a removed range shows the byte after it. */
  lemma StartByte(s: Text, i: nat, n: nat, t: Text)
    requires i + n < |s| && t == s[..i] + s[i + n..]
    ensures i < |t| && t[i] == s[i + n]
  {
  }

  lemma ShiftedBoundary(s: Text, p: nat, i: nat, n: nat, t: Text)
    requires i + n <= |s| && Boundary(s, p) && Boundary(s, i) && Boundary(s, i + n) && t == s[..i] + s[i + n..]
    ensures Boundary(t, Shifted(p, i, n))
  {
    var q := Shifted(p, i, n);
    assert q < |t| ==> t[q] == if q < i then s[q] else s[q + n];
  }

  lemma DeleteGood(e: Entry, i: nat, n: nat)
    requires Good(e) && CanDelete(e, i, n) && Boundary(e.text, i) && Boundary(e.text, i + n)
    ensures Good(Delete(e, i, n))
  {
    var t := Delete(e, i, n).text;
    CutBetween(e.text, i, i + n, t);
    ShiftedBoundary(e.text, e.cursor, i, n, t);
  }

  /** Deleting a range keeps the entry good: it begins and ends between characters, or its ends
      mend and the cursor was not in it. */
  predicate KeepsForm(e: Entry, i: nat, n: nat)
    requires CanDelete(e, i, n)
  {
    || (Boundary(e.text, i) && Boundary(e.text, i + n))
    || (Mends(e.text, i, n) && !(i < e.cursor < i + n))
  }

  /** Where the ends of the range mend, the cursor stays between characters if and only if it
      was not inside the range. */
  lemma MendedCursor(s: Text, p: nat, i: nat, n: nat, t: Text)
    requires i + n <= |s| && Boundary(s, p) && !Boundary(s, i) && !Boundary(s, i + n) && t == s[..i] + s[i + n..]
    ensures Boundary(t, Shifted(p, i, n)) <==> !(i < p < i + n)
  {
    StartByte(s, i, n, t);
    if !(i < p < i + n) { ShiftedByte(s, p, i, n, t); }
  }

  /** Deleting a range of bytes leaves a good entry if and only if it keeps the form. */
  lemma DeleteGoodIf(e: Entry, i: nat, n: nat)
    requires Good(e) && 0 < n && CanDelete(e, i, n)
    ensures Good(Delete(e, i, n)) <==> KeepsForm(e, i, n)
  {
    var t := Delete(e, i, n).text;
    CutFormed(e.text, i, n, t);
    if Boundary(e.text, i) && Boundary(e.text, i + n) {
      ShiftedBoundary(e.text, e.cursor, i, n, t);
    } else if Mends(e.text, i, n) {
      MendedCursor(e.text, e.cursor, i, n, t);
    }
  }

  lemma DeleteSelectedGood(e: Entry)
    requires Good(e)
    ensures Good(DeleteSelected(e))
  {
    if e.anchor != e.cursor { DeleteGood(e, Low(e), High(e) - Low(e)); }
  }

  lemma CommitAndResetGood(e: Entry)
    requires Good(e)
    ensures Good(CommitAndReset(e)) && CommitAndReset(e).commit.None?
  {
    if e.commit.Some? { InsertGood(e.(commit := None), e.commit.value); }
  }

  lemma DeletePrevGood(a: Entry)
    requires Good(a)
    ensures Good(DeletePrev(a))
  {
    var p := PrevChar(a.text, a.cursor);
    if p.Some? { DeleteGood(a, p.value, a.cursor - p.value); }
  }

  lemma DeleteNextGood(a: Entry)
    requires Good(a)
    ensures Good(DeleteNext(a))
  {
    var n := NextChar(a.text, a.cursor);
    if n.Some? { DeleteGood(a, a.cursor, n.value - a.cursor); }
  }

  lemma BackSpaceGood(e: Entry)
    requires Good(e)
    ensures Good(KeyBackSpace(e))
  {
    CommitAndResetGood(e);
    DeletePrevGood(CommitAndReset(e));
  }

  lemma DeleteKeyGood(e: Entry)
    requires Good(e)
    ensures Good(KeyDelete(e))
  {
    CommitAndResetGood(e);
    DeleteNextGood(CommitAndReset(e));
  }

  lemma TargetGood(e: Entry, w: Arrow)
    requires Good(e)
    ensures Target(e, w).Some? ==> Boundary(e.text, Target(e, w).value)
  {
    LinesOnBoundaries(e.text, e.cursor);
  }

  /** The two ways of handling BackSpace delete the same range. */
  lemma BackSpacesAgree(e: Entry)
    requires Good(e)
    ensures SymBackSpace(e) == KeyBackSpace(e)
  {
    CommitAndResetGood(e);
    var a := CommitAndReset(e);
    NextOfPrev(a.text, a.cursor);
  }

  /** Inserting well-formed text neither mends nor breaks an entry. */
  lemma InsertGoodIf(d: Entry, t: Text)
    requires Placed(d) && d.anchor == d.cursor && WellFormed(t) && (d.commit.Some? ==> WellFormed(d.commit.value))
    ensures Good(Insert(d, t)) <==> Good(d)
  {
    if Good(d) {
      InsertGood(d, t);
    } else if Good(Insert(d, t)) {
      Uninserted(d.text, d.cursor, t, Insert(d, t).text);
    }
  }

  /** Taking well-formed text out again. */
  lemma Uninserted(x: Text, c: nat, t: Text, s: Text)
    requires c <= |x| && s == x[..c] + t + x[c..] && WellFormed(t) && WellFormed(s) && Boundary(s, c + |t|)
    ensures WellFormed(x) && Boundary(x, c)
  {
    if t == [] {
      assert s == x;
    } else {
      StartsChar(t);
      assert s[c] == t[0];
      Split(s, c, x[..c], t + x[c..]);
      Cancel(t, x[c..], t + x[c..]);
      Join(x[..c], x[c..], x);
    }
  }

  /** The deletion, if any, that comes with a commit or preedit keeps the form. */
  predicate ReplacesWell(e: Entry)
    requires CanReplace(e)
  {
    e.pending.length > 0 ==> KeepsForm(e, e.pending.index, e.pending.length)
  }

  lemma ReplacedGoodIf(e: Entry)
    requires Good(e) && CanReplace(e)
    ensures Good(Replaced(e)) <==> ReplacesWell(e)
    ensures Replaced(e).anchor == Replaced(e).cursor && Replaced(e).commit == e.commit
  {
    if e.pending.length > 0 {
      DeleteGoodIf(e, e.pending.index, e.pending.length);
    } else {
      DeleteSelectedGood(e);
    }
  }

  lemma CommitGoodIf(e: Entry, serial: nat, t: Text)
    requires Good(e) && WellFormed(t) && CommitString(e, serial, t).Some?
    ensures Good(CommitString(e, serial, t).value) <==> (Applies(e, serial) ==> CanReplace(e) && ReplacesWell(e))
  {
    if Applies(e, serial) {
      var f := e.(commit := None);
      ReplacedGoodIf(f);
      InsertGoodIf(Replaced(f), t);
    }
  }

  lemma PreeditGoodIf(e: Entry, serial: nat, commit: Text)
    requires Good(e) && WellFormed(commit) && PreeditString(e, serial, commit).Some?
    ensures Good(PreeditString(e, serial, commit).value) <==> (Applies(e, serial) ==> CanReplace(e) && ReplacesWell(e))
  {
    if Applies(e, serial) { ReplacedGoodIf(e); }
  }

  lemma ArrowGood(e: Entry, w: Arrow, shift: bool)
    requires Good(e)
    ensures Good(KeyArrow(e, w, shift)) && Good(SymArrow(e, w, shift))
  {
    CommitAndResetGood(e);
    TargetGood(CommitAndReset(e), w);
    TargetGood(e, w);
  }

  /** The string an event brings in is well-formed. */
  ghost predicate Formed(v: Event) {
    match v
    case Typed(t) => WellFormed(t)
    case Inserted(t) => WellFormed(t)
    case Committed(_, t) => WellFormed(t)
    case Preedited(_, commit) => WellFormed(commit)
    case _ => true
  }

  /** The announced deletion that the event applies, if any, keeps the form. */
  predicate Careful(e: Entry, v: Event) {
    (v.Committed? || v.Preedited?) && Applies(e, v.serial) ==> CanReplace(e) && ReplacesWell(e)
  }

  /** The events that apply no announced deletion. */
  predicate Plain(v: Event) { !v.Committed? && !v.Preedited? }

  lemma PlainGood(e: Entry, v: Event)
    requires Good(e) && Formed(v) && Plain(v) && Handle(e, v).Some?
    ensures Good(Handle(e, v).value)
  {
    match v
    case Typed(t) => CommitAndResetGood(e); InsertGood(CommitAndReset(e), t);
    case BackSpaceKey => BackSpaceGood(e);
    case DeleteKey => DeleteKeyGood(e);
    case ArrowKey(w, shift) => ArrowGood(e, w, shift);
    case BackSpaceSym => BackSpacesAgree(e); BackSpaceGood(e);
    case ArrowSym(w, shift) => ArrowGood(e, w, shift);
    case Inserted(t) => InsertGood(e, t);
    case Cut => DeleteSelectedGood(e);
    case Announced(_, _) =>
  }

  lemma HandleGood(e: Entry, v: Event, r: Option<Entry>)
    requires Good(e) && Formed(v) && r == Handle(e, v) && r.Some?
    ensures Good(r.value) <==> Careful(e, v)
  {
    if v.Committed? {
      CommitGoodIf(e, v.serial, v.t);
    } else if v.Preedited? {
      PreeditGoodIf(e, v.serial, v.commit);
    } else {
      PlainGood(e, v);
    }
  }

  /** The entry is good after every part of the run that does not abort. */
  ghost predicate AlwaysGood(vs: seq<Event>) {
    && (vs != [] ==> AlwaysGood(vs[..|vs| - 1]))
    && (Run(vs).Some? ==> Good(Run(vs).value))
  }

  /** Every announced deletion that the run applies keeps the form. */
  predicate AlwaysCareful(vs: seq<Event>) {
    vs != [] ==>
      && AlwaysCareful(vs[..|vs| - 1])
      && (Run(vs).Some? ==> Run(vs[..|vs| - 1]).Some? && Careful(Run(vs[..|vs| - 1]).value, vs[|vs| - 1]))
  }

  /** However the text is edited with well-formed strings, it stays well-formed throughout and
      the cursor and the anchor stay between its characters - if and only if every announced
      deletion that is applied begins and ends between characters, or mends what it cuts and
      spares the cursor. */
  lemma {:induction false} EveryEdit(vs: seq<Event>)
    requires forall i | 0 <= i < |vs| :: Formed(vs[i])
    ensures AlwaysGood(vs) <==> AlwaysCareful(vs)
  {
    if vs == [] {
      EmptyFormed();
    } else {
      var before, v := vs[..|vs| - 1], vs[|vs| - 1];
      EveryEdit(before);
      if AlwaysGood(before) && Run(vs).Some? {
        StillGood(before);
        HandleGood(Run(before).value, v, Run(vs));
      }
    }
  }

  lemma StillGood(vs: seq<Event>)
    requires AlwaysGood(vs) && Run(vs).Some?
    ensures Good(Run(vs).value)
  {
  }

  lemma NotFormed(t: Text)
    requires t != [] && CharLen(t) == 0
    ensures !WellFormed(t)
  {
    if WellFormed(t) { FormedStart(t); }
  }

  lemma RanTo(vs: seq<Event>, v: Event, all: seq<Event>, e: Entry, r: Option<Entry>)
    requires all == vs + [v] && Run(vs) == Some(e) && Placed(e) && Handle(e, v) == r
    ensures Run(all) == r
  {
    Ran(vs, v, all);
  }

  lemma RanThree(v1: Event, v2: Event, v3: Event, e1: Entry, e2: Entry, r: Option<Entry>)
    requires Handle(Empty(), v1) == Some(e1) && Placed(e1) && Handle(e1, v2) == Some(e2) && Placed(e2)
    requires Handle(e2, v3) == r
    ensures Run([v1, v2, v3]) == r
  {
    RanTo([], v1, [v1], Empty(), Some(e1));
    RanTo([v1], v2, [v1, v2], e1, Some(e2));
    RanTo([v1, v2], v3, [v1, v2, v3], e2, r);
  }

  /** The code does break text: inserting a character of two bytes, announcing the deletion of
      its second byte and committing nothing leaves its first byte alone. */
  lemma BrokenText()
    ensures var r := Run([Inserted([0xC3, 0xA9]), Announced(-1, 1), Committed(1, [])]);
            r.Some? && r.value.text == [0xC3] && !WellFormed(r.value.text)
  {
    var e1 := Insert(Empty(), [0xC3, 0xA9]);
    assert e1.text == [0xC3, 0xA9];
    var e2 := DeleteSurrounding(e1, -1, 1);
    RanThree(Inserted([0xC3, 0xA9]), Announced(-1, 1), Committed(1, []), e1, e2, CommitString(e2, 1, []));
    HalfDeleted(e1);
    NotFormed([0xC3]);
  }

  lemma HalfDeleted(e: Entry)
    requires e.text == [0xC3, 0xA9] && e.cursor == 2 && e.anchor == 2 && e.updates == 1 && e.resetAt == 0
    ensures var r := CommitString(DeleteSurrounding(e, -1, 1), 1, []); r.Some? && r.value.text == [0xC3]
  {
    var f := DeleteSurrounding(e, -1, 1);
    assert f.pending == Pending(1, 1, false) && !Stale(f, 1);
    assert e.text[..1] + e.text[2..] == [0xC3];
    var d := Delete(f.(commit := None), 1, 1);
    assert d.text == [0xC3] && d.cursor == 1;
    assert d.text[..1] + [] + d.text[1..] == [0xC3];
  }

  // ---------------------------------------------------------------- undo

  /** What BackSpace leaves when no preedit is under way. */
  lemma BackSpaceText(f: Entry, p: Option<nat>)
    requires Placed(f) && f.commit.None? && p == PrevChar(f.text, f.cursor)
    ensures var r := KeyBackSpace(f);
            if p.None? then r.text == f.text && r.cursor == f.cursor
            else r.text == f.text[..p.value] + f.text[f.cursor..] && r.cursor == p.value
  {
  }

  /** After a string that is not one character, the previous position is not its start. */
  lemma PrevNotAll(a: Text, t: Text, b: Text, s: Text, p: nat)
    requires WellFormed(t) && !OneChar(t) && s == a + t + b && PrevChar(s, |a| + |t|) == Some(p)
    ensures p != |a|
  {
    if t != [] {
      var n := CharLen(t);
      FormedStart(t);
      StartsChar(t[n..]);
      assert t[n..][0] == t[n] == s[|a| + n];
    }
  }

  /** Typing a string and pressing BackSpace restores text and cursor - if and only if the
      string is one character, or it is empty and there is nothing before the cursor. */
  lemma TypeThenBackSpace(e: Entry, t: Text)
    requires Good(e) && WellFormed(t) && e.commit.None?
    ensures var r := KeyBackSpace(Insert(e, t));
            r.text == e.text && r.cursor == e.cursor <==> OneChar(t) || (t == [] && e.cursor == 0)
  {
    InsertGood(e, t);
    PrevUnlessFirst(Insert(e, t));
    TypedBack(e, t, Insert(e, t));
  }

  lemma PrevUnlessFirst(e: Entry)
    requires Good(e)
    ensures PrevChar(e.text, e.cursor).None? <==> e.cursor == 0
  {
    NextOfPrev(e.text, e.cursor);
  }

  lemma TypedBack(e: Entry, t: Text, f: Entry)
    requires Placed(e) && e.commit.None? && f == Insert(e, t) && WellFormed(t)
    requires PrevChar(f.text, f.cursor).None? <==> f.cursor == 0
    ensures var r := KeyBackSpace(f);
            r.text == e.text && r.cursor == e.cursor <==> OneChar(t) || (t == [] && e.cursor == 0)
  {
    var a, b := e.text[..e.cursor], e.text[e.cursor..];
    assert e.text == a + b;
    TypedAt(f, a, t, b);
  }

  lemma TypedAt(f: Entry, a: Text, t: Text, b: Text)
    requires Placed(f) && f.commit.None? && f.text == a + t + b && f.cursor == |a| + |t| && WellFormed(t)
    requires PrevChar(f.text, f.cursor).None? <==> f.cursor == 0
    ensures var r := KeyBackSpace(f);
            r.text == a + b && r.cursor == |a| <==> OneChar(t) || (t == [] && a == [])
  {
    var r := KeyBackSpace(f);
    BackSpaceText(f, PrevChar(f.text, f.cursor));
    UndoneIf(a, t, b, f.text, r.text, r.cursor);
  }

  lemma UndoneIf(a: Text, t: Text, b: Text, s: Text, left: Text, c: nat)
    requires WellFormed(t) && s == a + t + b
    requires var p := PrevChar(s, |a| + |t|);
             if |a| + |t| == 0 then p.None? && left == s && c == 0
             else p.Some? && left == s[..p.value] + s[|a| + |t|..] && c == p.value
    ensures left == a + b && c == |a| <==> OneChar(t) || (t == [] && a == [])
  {
    Undone(a, t, b, s);
  }

  lemma Undone(a: Text, t: Text, b: Text, s: Text)
    requires WellFormed(t) && s == a + t + b
    ensures OneChar(t) ==> PrevChar(s, |a| + |t|) == Some(|a|)
    ensures !OneChar(t) && PrevChar(s, |a| + |t|).Some? ==> PrevChar(s, |a| + |t|).value != |a|
    ensures s[..|a|] == a && s[|a| + |t|..] == b
  {
    if OneChar(t) {
      PrevOfInserted(a, t, b);
    } else if PrevChar(s, |a| + |t|).Some? {
      PrevNotAll(a, t, b, s, PrevChar(s, |a| + |t|).value);
    }
  }

  // ---------------------------------------------------------------- operations undone by others

  /** Going left and pressing Delete is pressing BackSpace. */
  lemma LeftThenDelete(e: Entry)
    requires Good(e) && e.commit.None? && e.cursor > 0
    ensures var r := KeyDelete(KeyArrow(e, ToLeft, false));
            r.text == KeyBackSpace(e).text && r.cursor == KeyBackSpace(e).cursor
  {
    NextOfPrev(e.text, e.cursor);
    LeftDeleted(e, PrevChar(e.text, e.cursor).value);
  }

  lemma LeftDeleted(e: Entry, p: nat)
    requires Placed(e) && e.commit.None? && PrevChar(e.text, e.cursor) == Some(p)
    requires NextChar(e.text, p) == Some(e.cursor)
    ensures var r := KeyDelete(KeyArrow(e, ToLeft, false)); r.text == e.text[..p] + e.text[e.cursor..] && r.cursor == p
    ensures KeyBackSpace(e).text == e.text[..p] + e.text[e.cursor..] && KeyBackSpace(e).cursor == p
  {
    var a := KeyArrow(e, ToLeft, false);
    assert a.text == e.text && a.cursor == p && a.commit.None?;
    assert CommitAndReset(a).text == e.text && CommitAndReset(a).cursor == p;
  }

  /** Left and right undo each other between the ends of the text. */
  lemma ArrowsUndo(e: Entry)
    requires Good(e) && e.commit.None?
    ensures e.cursor > 0 ==> SymArrow(SymArrow(e, ToLeft, false), ToRight, false).cursor == e.cursor
    ensures e.cursor < |e.text| ==> SymArrow(SymArrow(e, ToRight, false), ToLeft, false).cursor == e.cursor
  {
    NextOfPrev(e.text, e.cursor);
    if e.cursor < |e.text| { PrevOfNext(e.text, e.cursor); }
  }

  /** The text between cursor and anchor, as copy and cut take it. */
  function Selection(e: Entry): Text
    requires Placed(e)
  {
    e.text[Low(e)..High(e)]
  }

  /** Cutting and pasting back restores the text; the cursor is then behind what was cut. */
  lemma CutThenPaste(e: Entry)
    requires Placed(e)
    ensures var r := Insert(DeleteSelected(e), Selection(e)); r.text == e.text && r.cursor == High(e)
  {
    if e.anchor != e.cursor {
      var d := DeleteSelected(e);
      assert d.cursor == Low(e);
      assert d.text[..Low(e)] == e.text[..Low(e)] && d.text[Low(e)..] == e.text[High(e)..];
      assert e.text == e.text[..Low(e)] + Selection(e) + e.text[High(e)..];
    } else {
      assert e.text == e.text[..e.cursor] + [] + e.text[e.cursor..];
    }
  }

  // ---------------------------------------------------------------- modular checks

  /** The serial test refuses exactly the replies to states committed before the last reset. */
  predicate SerialRight(e: Entry, issued: nat) { Stale(e, issued % WORD) <==> issued < e.resetAt }

  lemma ModOfDifference(n: nat, m: nat)
    ensures (n - m % WORD) % WORD == (n - m) % WORD
  {
    var q := m / WORD;
    assert n - m % WORD == (n - m) + q * WORD;
    ModAddMultiple(n - m, q);
  }

  lemma ModAddMultiple(x: int, q: nat)
    ensures (x + q * WORD) % WORD == x % WORD
  {
  }

  /** With the last reset among the last 2^32 states, the test is right about a reply if and
      only if the reply's state is among them too, or its distance, reduced modulo 2^32, still
      exceeds that of the reset. */
  lemma SerialExact(e: Entry, issued: nat)
    requires e.resetAt <= e.updates < e.resetAt + WORD && issued <= e.updates
    ensures SerialRight(e, issued)
       <==> e.updates - issued < WORD || (e.updates - issued) % WORD > e.updates - e.resetAt
  {
    ModOfDifference(e.updates, issued);
  }

  /** A reply of exactly 2^32 states ago always passes. */
  lemma SerialWraps(e: Entry)
    requires e.updates >= WORD && e.resetAt <= e.updates < e.resetAt + WORD
    ensures !SerialRight(e, e.updates - WORD)
  {
    SerialExact(e, e.updates - WORD);
  }

  /** The test is right about every reply to the last 2^32 states if and only if the last reset
      is among them, or its distance is one less than a multiple of 2^32. */
  lemma ResetWindow(e: Entry)
    requires e.resetAt <= e.updates
    ensures (forall issued: nat | issued <= e.updates < issued + WORD :: SerialRight(e, issued))
       <==> e.updates - e.resetAt < WORD || (e.updates - e.resetAt) % WORD == WORD - 1
  {
    var r := (e.updates - e.resetAt) % WORD;
    forall issued: nat | issued <= e.updates < issued + WORD
      ensures Stale(e, issued % WORD) <==> e.updates - issued > r
    {
      ModOfDifference(e.updates, issued);
    }
    if e.updates - e.resetAt >= WORD && r < WORD - 1 {
      assert !SerialRight(e, e.updates - (r + 1));
    }
  }

  /** A reset of exactly 2^32 states ago makes the test refuse the reply to the state before the
      current one. */
  lemma OldResetRefuses(e: Entry)
    requires e.updates == e.resetAt + WORD
    ensures Stale(e, (e.updates - 1) % WORD) && e.updates - 1 >= e.resetAt
  {
    ModOfDifference(e.updates, e.updates - 1);
  }

  /** A range around the cursor that lies in the text. */
  predicate InText(e: Entry, index: int, length: nat) { 0 <= e.cursor + index && e.cursor + index + length <= |e.text| }

  predicate Words(index: int, length: nat) { -0x8000_0000 <= index < 0x8000_0000 && length < WORD }

  /** The test for surrounding text finds the range valid. */
  predicate Passes(e: Entry, index: int, length: nat) { !DeleteSurrounding(e, index, length).pending.invalid }

  /** In a text of under 2^31 bytes, a deletion is found valid exactly if the range lies in
      the text; it is then remembered as that range. */
  lemma SurroundingExact(e: Entry, index: int, length: nat)
    requires Placed(e) && |e.text| < 0x8000_0000 && Words(index, length)
    ensures Passes(e, index, length) <==> InText(e, index, length)
    ensures var p := DeleteSurrounding(e, index, length).pending;
            Passes(e, index, length) ==> p.index == e.cursor + index && CanDelete(e, p.index, p.length)
  {
  }

  /** Some range that is not in the text passes if and only if the text has 2^31 bytes or more,
      wherever the cursor is. */
  lemma SurroundingLimit(e: Entry)
    requires Placed(e) && |e.text| < WORD
    ensures (exists index: int, length: nat ::
               Words(index, length) && !InText(e, index, length) && Passes(e, index, length))
            <==> |e.text| >= 0x8000_0000
  {
    if |e.text| >= 0x8000_0000 {
      if e.cursor == 0 {
        assert Words(-0x8000_0000, 0) && !InText(e, -0x8000_0000, 0) && Passes(e, -0x8000_0000, 0);
      } else {
        PastPasses(e, 0x8000_0000 - e.cursor, 0x8000_0000);
      }
    } else {
      forall index: int, length: nat | Words(index, length)
        ensures Passes(e, index, length) ==> InText(e, index, length)
      {
        SurroundingExact(e, index, length);
      }
    }
  }

  lemma PastPasses(e: Entry, index: int, length: nat)
    requires Placed(e) && |e.text| < WORD && Words(index, length)
    requires 0 <= e.cursor + index <= |e.text| && length <= |e.text| && e.cursor + index + length >= WORD
    ensures !InText(e, index, length) && Passes(e, index, length)
  {
  }

  /** A range that begins before the text. */
  predicate Early(e: Entry, index: int, length: nat) { Words(index, length) && e.cursor + index < 0 }

  /** A range that begins in the text and ends past it. */
  predicate Late(e: Entry, index: int, length: nat) {
    Words(index, length) && 0 <= e.cursor + index && e.cursor + index + length > |e.text|
  }

  /** Ranges before the text pass from 2^31 bytes beyond the cursor on, and only then. */
  lemma EarlyLimit(e: Entry)
    requires Placed(e) && |e.text| < WORD
    ensures (exists index: int, length: nat :: Early(e, index, length) && Passes(e, index, length))
            <==> |e.text| >= 0x8000_0000 + e.cursor
  {
    if |e.text| >= 0x8000_0000 + e.cursor {
      assert Early(e, -0x8000_0000, 0) && Passes(e, -0x8000_0000, 0);
    }
  }

  /** Ranges past the text pass if the text has 2^31 bytes or more, and one more if the cursor
      is at its start, and only then. */
  lemma LateLimit(e: Entry)
    requires Placed(e) && |e.text| < WORD
    ensures (exists index: int, length: nat :: Late(e, index, length) && Passes(e, index, length))
            <==> |e.text| >= 0x8000_0000 && |e.text| + e.cursor > 0x8000_0000
  {
    var n := |e.text|;
    if n >= 0x8000_0000 && n + e.cursor > 0x8000_0000 {
      var i := if n <= e.cursor + 0x7fff_ffff then n else e.cursor + 0x7fff_ffff;
      PastPasses(e, i - e.cursor, n);
      assert Late(e, i - e.cursor, n);
    }
  }

  /** A valid deletion on character boundaries, committed before any other edit, passes the
      assertions and keeps the text well-formed. */
  lemma SurroundingThenCommit(e: Entry, index: int, length: nat, serial: nat, t: Text)
    requires Good(e) && |e.text| < 0x8000_0000 && Words(index, length) && InText(e, index, length) && WellFormed(t)
    requires Boundary(e.text, e.cursor + index) && Boundary(e.text, e.cursor + index + length)
    ensures var r := CommitString(DeleteSurrounding(e, index, length), serial, t); r.Some? && Good(r.value)
  {
    SurroundingExact(e, index, length);
    RememberedGood(e, e.cursor + index, length, DeleteSurrounding(e, index, length));
    CommitGoodIf(DeleteSurrounding(e, index, length), serial, t);
  }

  lemma RememberedGood(e: Entry, i: nat, n: nat, f: Entry)
    requires Good(e) && f == e.(pending := Pending(i, n, false)) && i + n <= |e.text|
    requires Boundary(e.text, i) && Boundary(e.text, i + n)
    ensures Good(f) && CanReplace(f) && ReplacesWell(f)
  {
  }
}
