/**
 The text entry as it runs: an object that owns a NUL-terminated buffer and updates it, the
 cursor and the anchor in place.  Insertion allocates a buffer and copies three pieces into
 it, deletion moves the tail; every copy is proved to stay in its buffer, and every handler
 to compute the function of the same purpose in TextEntry.dfy.
 */
module TextEntryImpl {
  import opened Options
  import opened Utf8
  import opened CStrings
  import opened TextEntry
  import opened TextEntryFields

  class EntryWidget {
    var text: array<Raw>
    var cursor: nat
    var anchor: nat
    var preeditCommit: Option<Text>
    var pending: Pending
    var serial: nat
    var resetSerial: nat
    ghost var contents: Text

    ghost predicate Valid()
      reads this, text
    {
      Holds(text, contents)
    }

    ghost function Abs(): Entry
      reads this
    {
      Entry(contents, cursor, anchor, preeditCommit, pending, serial, resetSerial)
    }

    constructor ()
      ensures Valid() && fresh(text) && Abs() == Empty()
    {
      text := new Raw[1](_ => 0);
      contents := [];
      cursor, anchor, preeditCommit, pending, serial, resetSerial := 0, 0, None, NO_PENDING, 0, 0;
    }

    /** text_entry_insert_at_cursor */
    method InsertAtCursor(t: array<Raw>, ghost s: Text)
      requires Valid() && Placed(Abs()) && Holds(t, s)
      modifies this
      ensures contents == old(contents)[..old(cursor)] + s + old(contents)[old(cursor)..]
      ensures cursor == anchor == old(cursor) + |s| && serial == old(serial) + 1
      ensures preeditCommit == old(preeditCommit) && pending == old(pending) && resetSerial == old(resetSerial)
      ensures Valid() && fresh(text) && Abs() == Insert(old(Abs()), s)
    {
      var added := StrLen(t, 0, s);
      text := Splice(text, cursor, t, contents, s);
      contents := contents[..cursor] + s + contents[cursor..];
      anchor := cursor + added;
      cursor := cursor + added;
      serial := serial + 1;
    }

    /** text_entry_delete_text; false where one of its assertions fails. */
    method DeleteText(index: nat, length: nat) returns (ok: bool)
      requires Valid() && Placed(Abs())
      modifies this, text
      ensures Valid() && text == old(text)
      ensures ok <==> index + length <= |old(contents)|
      ensures Abs() == if ok then Delete(old(Abs()), index, length) else old(Abs())
    {
      var size := StrLen(text, 0, contents);
      if index > size || index + length > size {
        return false;
      }
      Remove(text, index, length, contents);
      contents := Without(contents, index, index + length);
      if cursor > index + length {
        cursor := cursor - length;
      } else if cursor > index {
        cursor := index;
      }
      anchor := cursor;
      serial := serial + 1;
      return true;
    }

    method DeleteSelectedText()
      requires Valid() && Placed(Abs())
      modifies this, text
      ensures Valid() && text == old(text) && Abs() == DeleteSelected(old(Abs()))
      ensures old(anchor) == old(cursor) ==> Abs() == old(Abs())
      ensures old(anchor) < old(cursor) ==>
                contents == Without(old(contents), old(anchor), old(cursor)) && cursor == anchor == old(anchor)
      ensures old(cursor) < old(anchor) ==>
                contents == Without(old(contents), old(cursor), old(anchor)) && cursor == anchor == old(cursor)
      ensures old(anchor) != old(cursor) ==> serial == old(serial) + 1
      ensures preeditCommit == old(preeditCommit) && pending == old(pending) && resetSerial == old(resetSerial)
    {
      var start := if anchor < cursor then anchor else cursor;
      var end := if anchor < cursor then cursor else anchor;
      if anchor == cursor {
        return;
      }
      var _ := DeleteText(start, end - start);
      anchor := cursor;
    }

    method CommitReset()
      requires Valid() && Placed(Abs())
      modifies this
      ensures Valid() && (text == old(text) || fresh(text)) && Abs() == CommitAndReset(old(Abs()))
    {
      var commit := preeditCommit;
      preeditCommit := None;
      if commit.Some? {
        var t := StrDup(commit.value);
        InsertAtCursor(t, commit.value);
      }
      serial := serial + 1;
      resetSerial := serial;
    }

    method BackSpaceOnKey()
      requires Valid() && Placed(Abs())
      modifies this, text
      ensures Valid() && (text == old(text) || fresh(text)) && Abs() == KeyBackSpace(old(Abs()))
    {
      CommitReset();
      var newChar := Utf8PrevChar(text, cursor, contents);
      if newChar.Some? {
        var _ := DeleteText(newChar.value, cursor - newChar.value);
      }
    }

    method BackSpaceOnKeysym()
      requires Valid() && Placed(Abs())
      modifies this, text
      ensures Valid() && (text == old(text) || fresh(text)) && Abs() == SymBackSpace(old(Abs()))
    {
      CommitReset();
      var start := Utf8PrevChar(text, cursor, contents);
      if start.None? {
        return;
      }
      var end := Utf8NextChar(text, start.value, contents);
      var _ := DeleteText(start.value, end.value - start.value);
    }

    method DeleteOnKey()
      requires Valid() && Placed(Abs())
      modifies this, text
      ensures Valid() && (text == old(text) || fresh(text)) && Abs() == KeyDelete(old(Abs()))
    {
      CommitReset();
      var newChar := Utf8NextChar(text, cursor, contents);
      if newChar.Some? {
        var _ := DeleteText(cursor, newChar.value - cursor);
      }
    }

    /** Where an arrow leads. */
    method Look(w: Arrow) returns (r: Option<nat>)
      requires Valid() && Placed(Abs())
      ensures r == Target(Abs(), w) && r == Leads(contents, cursor, w)
    {
      match w
      case ToLeft => r := Utf8PrevChar(text, cursor, contents);
      case ToRight => r := Utf8NextChar(text, cursor, contents);
      case ToUp => var c := MoveUp(text, cursor, contents); r := Some(c);
      case ToDown => var c := MoveDown(text, cursor, contents); r := Some(c);
    }

    method ArrowOnKey(w: Arrow, shift: bool)
      requires Valid() && Placed(Abs())
      modifies this
      ensures Valid() && (text == old(text) || fresh(text)) && Abs() == KeyArrow(old(Abs()), w, shift)
      ensures shift && old(preeditCommit).None? ==> anchor == old(anchor)
      ensures !shift && cursor != old(cursor) && old(preeditCommit).None? ==> anchor == cursor
    {
      CommitReset();
      var newChar := Look(w);
      if newChar.Some? {
        cursor := newChar.value;
        if !shift {
          anchor := cursor;
        }
      }
    }

    method ArrowOnKeysym(w: Arrow, shift: bool)
      requires Valid() && Placed(Abs())
      modifies this`cursor, this`anchor
      ensures Valid() && Abs() == SymArrow(old(Abs()), w, shift)
      ensures contents == old(contents) && serial == old(serial)
      ensures cursor == match Leads(contents, old(cursor), w) case None => old(cursor) case Some(n) => n
      ensures anchor == if shift then old(anchor) else cursor
    {
      var newChar := Look(w);
      if newChar.Some? {
        cursor := newChar.value;
      }
      if !shift {
        anchor := cursor;
      }
    }

    /** The deletion that a commit or preedit string starts with. */
    method Replace() returns (ok: bool)
      requires Valid() && Placed(Abs())
      modifies this, text
      ensures Valid() && text == old(text)
      ensures ok <==> CanReplace(old(Abs()))
      ensures ok ==> Abs() == Replaced(old(Abs()))
      ensures ok <==> pending.length == 0 || pending.index + pending.length <= |old(contents)|
      ensures pending == old(pending) && preeditCommit == old(preeditCommit) && resetSerial == old(resetSerial)
      ensures ok ==> Left(old(Abs()), contents, cursor) && anchor == cursor
    {
      ghost var was := Abs();
      if CanReplace(was) { ReplacedFields(was, Replaced(was)); }
      if pending.length > 0 {
        ok := DeleteText(pending.index, pending.length);
      } else {
        DeleteSelectedText();
        ok := true;
      }
    }

    /** Whether a serial, compared in 32-bit words, is older than the last reset. */
    method IsStale(given: nat) returns (r: bool)
      ensures r == Stale(Abs(), given)
    {
      r := (serial - given) % WORD > (serial - resetSerial) % WORD;
    }

    /** text_input_commit_string; false where the client aborts. */
    method CommitText(given: nat, t: Text) returns (ok: bool)
      requires Valid() && Placed(Abs())
      modifies this, text
      ensures Valid() && (text == old(text) || fresh(text))
      ensures ok <==> CommitString(old(Abs()), given, t).Some?
      ensures ok ==> Some(Abs()) == CommitString(old(Abs()), given, t)
      ensures var late := (old(serial) - given) % WORD > (old(serial) - old(resetSerial)) % WORD;
              && (late ==> ok && Abs() == old(Abs()))
              && (!late && old(pending).invalid ==> ok && Abs() == old(Abs()).(pending := NO_PENDING))
              && (!late && !old(pending).invalid ==>
                    && (ok <==> old(pending).length == 0 || old(pending).index + old(pending).length <= |old(contents)|)
                    && (ok ==> pending == NO_PENDING && preeditCommit.None?)
                    && (ok ==> exists base, at: nat ::
                          && Left(old(Abs()), base, at)
                          && contents == base[..at] + t + base[at..] && cursor == anchor == at + |t|))
    {
      var stale := IsStale(given);
      if stale {
        return true;
      }
      if pending.invalid {
        pending := NO_PENDING;
        return true;
      }
      preeditCommit := None;
      ok := Replace();
      if !ok {
        return;
      }
      var s := StrDup(t);
      InsertAtCursor(s, t);
      pending := NO_PENDING;
      ghost var base, at := CommitFields(old(Abs()), given, t, Abs());
    }

    /** text_input_preedit_string; false where the client aborts. */
    method PreeditText(given: nat, commit: Text) returns (ok: bool)
      requires Valid() && Placed(Abs())
      modifies this, text
      ensures Valid() && text == old(text)
      ensures ok <==> PreeditString(old(Abs()), given, commit).Some?
      ensures ok ==> Some(Abs()) == PreeditString(old(Abs()), given, commit)
      ensures var late := (old(serial) - given) % WORD > (old(serial) - old(resetSerial)) % WORD;
              && (late || old(pending).invalid ==> ok && Abs() == old(Abs()).(pending := NO_PENDING))
              && (!late && !old(pending).invalid ==>
                    && (ok <==> old(pending).length == 0 || old(pending).index + old(pending).length <= |old(contents)|)
                    && (ok ==> pending == NO_PENDING && preeditCommit == Some(commit))
                    && (ok ==> Left(old(Abs()), contents, cursor) && anchor == cursor))
    {
      var stale := IsStale(given);
      if stale || pending.invalid {
        pending := NO_PENDING;
        return true;
      }
      ok := Replace();
      if !ok {
        return;
      }
      preeditCommit := Some(commit);
      pending := NO_PENDING;
      serial := serial + 1;
    }

    /** text_input_delete_surrounding_text */
    method DeleteSurroundingText(index: int, length: nat)
      requires Valid()
      modifies this`pending
      ensures Valid() && Abs() == DeleteSurrounding(old(Abs()), index, length)
    {
      pending := Pending((cursor + index) % WORD, length, false);
      var size := StrLen(text, 0, contents);
      if pending.index > size || length > size || (pending.index + length) % WORD > size {
        pending := pending.(invalid := true);
      }
    }

    /** An insertion from outside: pasted text, Tab or Return. */
    method InsertText(t: Text)
      requires Valid() && Placed(Abs())
      modifies this
      ensures Valid() && fresh(text) && Abs() == Insert(old(Abs()), t)
    {
      var s := StrDup(t);
      InsertAtCursor(s, t);
    }

    /** One event; false where the client aborts. */
    method Dispatch(v: Event) returns (ok: bool)
      requires Valid() && Placed(Abs())
      modifies this, text
      ensures Valid() && (text == old(text) || fresh(text))
      ensures ok <==> Handle(old(Abs()), v).Some?
      ensures ok ==> Some(Abs()) == Handle(old(Abs()), v)
      ensures v.Inserted? ==> contents == old(contents)[..old(cursor)] + v.t + old(contents)[old(cursor)..]
      ensures v.Typed? ==>
                var c := Filled(old(contents), old(cursor), old(preeditCommit));
                var k := old(cursor) + Length(old(preeditCommit));
                contents == c[..k] + v.t + c[k..] && cursor == anchor == k + |v.t|
    {
      ok := true;
      CommittedFields(Abs(), CommitAndReset(Abs()));
      match v
      case Typed(t) => CommitReset(); InsertText(t);
      case BackSpaceKey => BackSpaceOnKey();
      case DeleteKey => DeleteOnKey();
      case ArrowKey(w, shift) => ArrowOnKey(w, shift);
      case BackSpaceSym => BackSpaceOnKeysym();
      case ArrowSym(w, shift) => ArrowOnKeysym(w, shift);
      case Inserted(t) => InsertText(t);
      case Cut => DeleteSelectedText();
      case Announced(index, length) => DeleteSurroundingText(index, length);
      case Committed(given, t) => ok := CommitText(given, t);
      case Preedited(given, commit) => ok := PreeditText(given, commit);
    }
  }

  /** A whole editing session: unless it aborts, exactly where TextEntry.Run does, its buffer
      holds the text of that run - well-formed, if the strings were and every announced
      deletion that was applied keeps the form. */
  method Edit(vs: seq<Event>) returns (ok: bool, buffer: array<Raw>)
    ensures ok <==> Run(vs).Some?
    ensures ok ==> Holds(buffer, Run(vs).value.text)
    ensures ok && (forall i | 0 <= i < |vs| :: Formed(vs[i])) && AlwaysCareful(vs) ==> WellFormed(Run(vs).value.text)
  {
    var e := new EntryWidget();
    assert vs[..0] == [];
    for i := 0 to |vs|
      invariant fresh(e) && fresh(e.text) && e.Valid() && Run(vs[..i]) == Some(e.Abs())
    {
      Ran(vs[..i], vs[i], vs[..i + 1]);
      ok := e.Dispatch(vs[i]);
      if !ok {
        AbortStays(vs, i + 1, vs[..i + 1]);
        return false, e.text;
      }
    }
    assert vs[..|vs|] == vs;
    if (forall i | 0 <= i < |vs| :: Formed(vs[i])) && AlwaysCareful(vs) {
      EveryEdit(vs);
      StillGood(vs);
    }
    return true, e.text;
  }
}
