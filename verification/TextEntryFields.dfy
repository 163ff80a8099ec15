/**
 What each event makes of the text entry, field by field: the bytes of the text, the cursor,
 the anchor and the string of an unfinished preedit, in terms of those before.
 */
module TextEntryFields {
  import opened Options
  import opened Utf8
  import opened TextEntry

  /** A text with a string put in, if there is one, and the length of that string. */
  function Filled(c: Text, at: nat, t: Option<Text>): Text
    requires at <= |c|
  {
    if t.Some? then c[..at] + t.value + c[at..] else c
  }

  function Length(t: Option<Text>): nat { if t.Some? then |t.value| else 0 }

  /** A text without a range. */
  function Without(c: Text, from: nat, to: nat): Text
    requires from <= to <= |c|
  {
    c[..from] + c[to..]
  }

  lemma CommittedFields(e: Entry, r: Entry)
    requires Placed(e) && r == CommitAndReset(e)
    ensures r.text == Filled(e.text, e.cursor, e.commit) && r.cursor == e.cursor + Length(e.commit)
    ensures r.anchor == (if e.commit.Some? then r.cursor else e.anchor) && r.commit.None? && r.pending == e.pending
    ensures r.resetAt == r.updates == e.updates + if e.commit.Some? then 2 else 1
  {
  }

  lemma DeletedFields(e: Entry, i: nat, n: nat, r: Entry)
    requires Placed(e) && CanDelete(e, i, n) && r == Delete(e, i, n)
    ensures r.text == Without(e.text, i, i + n) && r.anchor == r.cursor && r.updates == e.updates + 1
    ensures r.cursor == if e.cursor <= i then e.cursor else if e.cursor <= i + n then i else e.cursor - n
    ensures r.commit == e.commit && r.pending == e.pending && r.resetAt == e.resetAt
  {
  }

  /** BackSpace, by its fields: the character before the cursor goes, after the string of an
      unfinished preedit has been put in. */
  lemma KeyBackSpaceFields(e: Entry, c: Text, k: nat, r: Entry)
    requires Placed(e) && r == KeyBackSpace(e)
    requires c == Filled(e.text, e.cursor, e.commit) && k == e.cursor + Length(e.commit)
    ensures match PrevChar(c, k)
            case None => r.text == c && r.cursor == k
            case Some(p) => r.text == Without(c, p, k) && r.cursor == r.anchor == p
    ensures r.commit.None? && r.pending == e.pending
  {
    var a := CommitAndReset(e);
    CommittedFields(e, a);
    match PrevChar(a.text, a.cursor)
    case None =>
    case Some(p) => DeletedFields(a, p, a.cursor - p, r);
  }

  lemma SymBackSpaceFields(e: Entry, c: Text, k: nat, r: Entry)
    requires Placed(e) && r == SymBackSpace(e)
    requires c == Filled(e.text, e.cursor, e.commit) && k == e.cursor + Length(e.commit)
    ensures match PrevChar(c, k)
            case None => r.text == c && r.cursor == k
            case Some(p) =>
              && r.text == Without(c, p, NextChar(c, p).value) && r.cursor == r.anchor
              && (k <= NextChar(c, p).value ==> r.cursor == p)
    ensures r.commit.None? && r.pending == e.pending
  {
    var a := CommitAndReset(e);
    CommittedFields(e, a);
    SymBackFields(a, PrevChar(a.text, a.cursor), r);
  }

  lemma SymBackFields(a: Entry, s: Option<nat>, r: Entry)
    requires Placed(a) && s == PrevChar(a.text, a.cursor)
    requires r == if s.None? then a else Delete(a, s.value, NextChar(a.text, s.value).value - s.value)
    ensures r.commit == a.commit && r.pending == a.pending
    ensures match s
            case None => r.text == a.text && r.cursor == a.cursor
            case Some(p) =>
              && r.text == Without(a.text, p, NextChar(a.text, p).value) && r.cursor == r.anchor
              && (a.cursor <= NextChar(a.text, p).value ==> r.cursor == p)
  {
    if s.Some? { DeletedFields(a, s.value, NextChar(a.text, s.value).value - s.value, r); }
  }

  /** An arrow key, by its fields: with shift the anchor stays. */
  lemma KeyArrowFields(e: Entry, w: Arrow, shift: bool, c: Text, k: nat, r: Entry)
    requires Placed(e) && r == KeyArrow(e, w, shift)
    requires c == Filled(e.text, e.cursor, e.commit) && k == e.cursor + Length(e.commit)
    ensures var a := if e.commit.Some? then k else e.anchor;
            && r.text == c && r.commit.None? && r.pending == e.pending
            && match Leads(c, k, w)
               case None => r.cursor == k && r.anchor == a
               case Some(n) => r.cursor == n && r.anchor == if shift then a else n
  {
    CommittedFields(e, CommitAndReset(e));
  }

  /** Where an arrow leads from a position. */
  function Leads(c: Text, k: nat, w: Arrow): Option<nat>
    requires k <= |c|
  {
    match w
    case ToLeft => PrevChar(c, k)
    case ToRight => NextChar(c, k)
    case ToUp => Some(Up(c, k))
    case ToDown => Some(Down(c, k))
  }

  lemma KeyDeleteFields(e: Entry, c: Text, k: nat, r: Entry)
    requires Placed(e) && r == KeyDelete(e)
    requires c == Filled(e.text, e.cursor, e.commit) && k == e.cursor + Length(e.commit)
    ensures match NextChar(c, k)
            case None => r.text == c && r.cursor == k
            case Some(n) => r.text == Without(c, k, n) && r.cursor == r.anchor == k
    ensures r.commit.None? && r.pending == e.pending
  {
    var a := CommitAndReset(e);
    CommittedFields(e, a);
    match NextChar(a.text, a.cursor)
    case None =>
    case Some(n) => DeletedFields(a, a.cursor, n - a.cursor, r);
  }

  /** What is left of the text without the announced range, or without the selection, and
      where the cursor is then. */
  predicate Left(e: Entry, base: Text, at: nat)
    requires Placed(e)
  {
    && at <= |base|
    && if e.pending.length > 0 then
         var i, n := e.pending.index, e.pending.length;
         && i + n <= |e.text| && base == Without(e.text, i, i + n)
         && at == if e.cursor <= i then e.cursor else if e.cursor <= i + n then i else e.cursor - n
       else
         if e.anchor < e.cursor then base == Without(e.text, e.anchor, e.cursor) && at == e.anchor
         else base == Without(e.text, e.cursor, e.anchor) && at == e.cursor
  }

  lemma ReplacedFields(e: Entry, r: Entry)
    requires Placed(e) && CanReplace(e) && r == Replaced(e)
    ensures Left(e, r.text, r.cursor) && r.anchor == r.cursor
    ensures r.commit == e.commit && r.pending == e.pending && r.resetAt == e.resetAt
  {
    if e.pending.length > 0 {
      DeletedFields(e, e.pending.index, e.pending.length, r);
    } else if e.anchor != e.cursor {
      DeletedFields(e, Low(e), High(e) - Low(e), r);
    } else {
      assert Without(e.text, e.cursor, e.anchor) == e.text;
    }
  }

  lemma CommitFields(e: Entry, serial: nat, t: Text, r: Entry) returns (base: Text, at: nat)
    requires Placed(e) && Applies(e, serial) && CommitString(e, serial, t) == Some(r)
    ensures Left(e, base, at) && r.text == base[..at] + t + base[at..] && r.cursor == r.anchor == at + |t|
    ensures r.pending == NO_PENDING && r.commit.None?
  {
    var d := e.(commit := None);
    ReplacedFields(d, Replaced(d));
    base, at := Replaced(d).text, Replaced(d).cursor;
  }

  lemma PreeditFields(e: Entry, serial: nat, commit: Text, r: Entry)
    requires Placed(e) && Applies(e, serial) && PreeditString(e, serial, commit) == Some(r)
    ensures Left(e, r.text, r.cursor) && r.anchor == r.cursor && r.pending == NO_PENDING && r.commit == Some(commit)
  {
    ReplacedFields(e, Replaced(e));
  }

  lemma CutFields(e: Entry, r: Entry)
    requires Placed(e) && r == DeleteSelected(e)
    ensures if e.anchor < e.cursor then
              r.text == Without(e.text, e.anchor, e.cursor) && r.cursor == r.anchor == e.anchor
            else if e.cursor < e.anchor then
              r.text == Without(e.text, e.cursor, e.anchor) && r.cursor == r.anchor == e.cursor
            else r == e
  {
    if e.anchor != e.cursor { DeletedFields(e, Low(e), High(e) - Low(e), r); }
  }

  /** A reply of the input method is dropped because it is stale, or because the deletion
      announced before it was invalid. */
  predicate Dropped(e: Entry, serial: nat) {
    (e.updates - serial) % 0x1_0000_0000 > (e.updates - e.resetAt) % 0x1_0000_0000 || e.pending.invalid
  }

  /** What an event makes of the entry; `c` and `k` are the text and the cursor once the string of
      an unfinished preedit has been put in, as keys begin with. */
  ghost predicate After(e: Entry, v: Event, c: Text, k: nat, r: Entry)
    requires Placed(e) && k <= |c|
  {
    match v
    case Typed(t) => r.text == c[..k] + t + c[k..] && r.cursor == r.anchor == k + |t|
    case Inserted(t) => r.text == e.text[..e.cursor] + t + e.text[e.cursor..] && r.cursor == r.anchor == e.cursor + |t|
    case BackSpaceKey => Erased(c, k, PrevChar(c, k), Some(k), r)
    case BackSpaceSym =>
      Erased(c, k, PrevChar(c, k), if PrevChar(c, k).Some? then NextChar(c, PrevChar(c, k).value) else None, r)
    case DeleteKey => Erased(c, k, Some(k), NextChar(c, k), r)
    case ArrowKey(w, shift) =>
      var to := Leads(c, k, w);
      var a := if e.commit.Some? then k else e.anchor;
      && r.text == c && r.cursor == (if to.Some? then to.value else k)
      && r.anchor == if to.Some? && !shift then r.cursor else a
    case ArrowSym(w, shift) =>
      var to := Leads(e.text, e.cursor, w);
      && r.text == e.text && r.cursor == (if to.Some? then to.value else e.cursor)
      && r.anchor == if shift then e.anchor else r.cursor
    case Cut =>
      if e.anchor < e.cursor then r.text == Without(e.text, e.anchor, e.cursor) && r.cursor == r.anchor == e.anchor
      else r.text == Without(e.text, e.cursor, e.anchor) && r.cursor == r.anchor == e.cursor
    case Announced(_, _) => r == e.(pending := r.pending)
    case Committed(serial, t) =>
      if Dropped(e, serial) then r == e.(pending := r.pending)
      else
        && r.commit.None? && r.pending == NO_PENDING
        && exists base, at: nat :: Left(e, base, at) && r.text == base[..at] + t + base[at..] && r.cursor == at + |t|
    case Preedited(serial, t) =>
      if Dropped(e, serial) then r == e.(pending := NO_PENDING)
      else r.commit == Some(t) && r.pending == NO_PENDING && Left(e, r.text, r.cursor)
  }

  /** A range has been erased, if there was one, and the cursor is where it was. */
  predicate Erased(c: Text, k: nat, from: Option<nat>, to: Option<nat>, r: Entry) {
    if from.Some? && to.Some? then
      from.value <= to.value <= |c| && r.text == Without(c, from.value, to.value) && r.anchor == r.cursor
      && (from.value <= k <= to.value ==> r.cursor == from.value)
    else r.text == c && r.cursor == k
  }

  lemma KeysAfter(e: Entry, v: Event, c: Text, k: nat, r: Entry)
    requires Placed(e) && Handle(e, v) == Some(r) && (v.BackSpaceKey? || v.BackSpaceSym? || v.DeleteKey?)
    requires c == Filled(e.text, e.cursor, e.commit) && k == e.cursor + Length(e.commit)
    ensures After(e, v, c, k, r)
  {
    match v
    case BackSpaceKey => KeyBackSpaceFields(e, c, k, r);
    case BackSpaceSym => SymBackSpaceFields(e, c, k, r);
    case DeleteKey => KeyDeleteFields(e, c, k, r);
  }

  lemma RepliesAfter(e: Entry, v: Event, c: Text, k: nat, r: Entry)
    requires Placed(e) && Handle(e, v) == Some(r) && (v.Committed? || v.Preedited?) && k <= |c|
    ensures After(e, v, c, k, r)
  {
    match v
    case Committed(serial, t) => if Applies(e, serial) { var base, at := CommitFields(e, serial, t, r); }
    case Preedited(serial, t) => if Applies(e, serial) { PreeditFields(e, serial, t, r); }
  }

  /** Every event, on every entry, does exactly that. */
  lemma EventFields(e: Entry, v: Event, c: Text, k: nat, r: Entry)
    requires Placed(e) && Handle(e, v) == Some(r)
    requires c == Filled(e.text, e.cursor, e.commit) && k == e.cursor + Length(e.commit)
    ensures After(e, v, c, k, r)
  {
    match v
    case Typed(t) => CommittedFields(e, CommitAndReset(e));
    case ArrowKey(w, shift) => KeyArrowFields(e, w, shift, c, k, r);
    case Cut => CutAfter(e, c, k, r);
    case Committed(_, _) => RepliesAfter(e, v, c, k, r);
    case Preedited(_, _) => RepliesAfter(e, v, c, k, r);
    case BackSpaceKey => KeysAfter(e, v, c, k, r);
    case BackSpaceSym => KeysAfter(e, v, c, k, r);
    case DeleteKey => KeysAfter(e, v, c, k, r);
    case _ =>
  }

  lemma CutAfter(e: Entry, c: Text, k: nat, r: Entry)
    requires Placed(e) && r == DeleteSelected(e) && k <= |c|
    ensures After(e, Cut, c, k, r)
  {
    CutFields(e, r);
    if e.anchor == e.cursor { assert Without(e.text, e.cursor, e.anchor) == e.text; }
  }
}
