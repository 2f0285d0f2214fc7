/**
 * The text editor with snapshots: TextEditor (the originator) edits a string
 * at a cursor, TextMemento is the snapshot it saves and restores, and
 * EditorHistory (the caretaker) is a capped stack of snapshots that drops the
 * oldest one when it is full.
 *
 * A snapshot holds exactly the editor's state, so the same datatype is the
 * value the pure specification functions Written, Deleted and CursorMoved
 * work on; the TextEditor methods are proved to do what they say.
 */
module MementoPattern {
  import opened Wrappers
  import opened JavaInts

  /** A snapshot: content and cursor (the wall-clock timestamp is not modelled). */
  datatype TextMemento = TextMemento(content: string, cursorPosition: int)

  /** The cursor lies on a character boundary of the content. */
  predicate CursorInRange(m: TextMemento) {
    0 <= m.cursorPosition <= |m.content|
  }

  /**
   * write(text): the text goes in at the cursor and the cursor moves past it.
   * A cursor outside the content makes Java's substring throw: None.
   */
  function Written(m: TextMemento, text: string): (r: Option<TextMemento>)
    ensures r.Some? <==> CursorInRange(m)
    ensures r.Some? ==>
      var c := m.cursorPosition;
      && CursorInRange(r.value)
      && |r.value.content| == |m.content| + |text|
      && r.value.content[..c] == m.content[..c]
      && r.value.content[c..c + |text|] == text
      && r.value.content[c + |text|..] == m.content[c..]
      && r.value.cursorPosition == c + |text|
  {
    if CursorInRange(m) then
      var c := m.cursorPosition;
      Some(TextMemento(m.content[..c] + text + m.content[c..], c + |text|))
    else
      None
  }

  /** setCursor(position): Math.max(0, Math.min(position, length)). */
  function CursorMoved(m: TextMemento, position: int): (r: TextMemento)
    ensures r.content == m.content && CursorInRange(r)
    ensures 0 <= position <= |m.content| ==> r.cursorPosition == position
    ensures position < 0 ==> r.cursorPosition == 0
    ensures position > |m.content| ==> r.cursorPosition == |m.content|
  {
    var p := if position < |m.content| then position else |m.content|;
    TextMemento(m.content, if p < 0 then 0 else p)
  }

  /** Math.max(0, cursor - count), with the subtraction done in Java's int. */
  function DeleteStart(cursor: int, count: Int32): (s: int)
    ensures s >= 0
    ensures -TwoTo31 <= cursor - count as int < TwoTo31 ==>
      s == if cursor < count as int then 0 else cursor - count as int
    ensures TwoTo31 <= cursor - count as int < TwoTo32 ==> s == 0
  {
    var x := cursor - count as int;
    var d := if TwoTo31 <= x < TwoTo31 + TwoTo32 then WrapAbove(x); Wrap32(x) as int else Wrap32(x) as int;
    if d < 0 then 0 else d
  }

  /**
   * delete(count): the span from max(0, cursor - count) to the cursor goes and
   * the cursor moves to its start, so a non-negative count removes the
   * min(count, cursor) characters before the cursor. A negative count makes
   * that start lie past the cursor, and the characters between them then
   * appear twice; when cursor - count overflows Java's int it wraps to a
   * negative number, and everything before the cursor goes. A start past the
   * end of the content, or a cursor outside it, makes substring throw: None.
   */
  function Deleted(m: TextMemento, count: Int32): (r: Option<TextMemento>)
    ensures r.Some? <==> CursorInRange(m) && DeleteStart(m.cursorPosition, count) <= |m.content|
    ensures r.Some? && count >= 0 && |m.content| < TwoTo31 ==>
      var c := m.cursorPosition;
      var k := if count as int < c then count as int else c;
      && CursorInRange(r.value)
      && r.value.cursorPosition == c - k
      && |r.value.content| == |m.content| - k
      && r.value.content[..c - k] == m.content[..c - k]
      && r.value.content[c - k..] == m.content[c..]
    ensures r.Some? && count < 0 && m.cursorPosition - count as int < TwoTo31 ==>
      var c, n := m.cursorPosition, count as int;
      && r.value.cursorPosition == c - n
      && |r.value.content| == |m.content| - n
      && r.value.content[..c - n] == m.content[..c - n]
      && r.value.content[c - n..] == m.content[c..]
    ensures CursorInRange(m) && |m.content| < TwoTo31 && m.cursorPosition - count as int >= TwoTo31 ==>
      r == Some(TextMemento(m.content[m.cursorPosition..], 0))
  {
    var c := m.cursorPosition;
    var start := DeleteStart(c, count);
    if start <= |m.content| && 0 <= c <= |m.content| then
      assert m.content[..0] + m.content[c..] == m.content[c..];
      Some(TextMemento(m.content[..start] + m.content[c..], start))
    else
      None
  }

  /** delete(Integer.MIN_VALUE) with the cursor at 1 in "ab": the subtraction wraps and "b" is left. */
  lemma DeleteMinValue()
    ensures Deleted(TextMemento("ab", 1), -0x8000_0000) == Some(TextMemento("b", 0))
  {
  }

  /**
   * Writing a text and then deleting as many characters gives the editor back,
   * as long as the content stays within Java's string length.
   */
  lemma {:induction false} DeleteUndoesWrite(m: TextMemento, text: string)
    requires CursorInRange(m) && |m.content| + |text| < TwoTo31
    ensures Deleted(Written(m, text).value, |text| as Int32) == Some(m)
  {
    var c := m.cursorPosition;
    var w := Written(m, text).value;
    assert w.content[..c] + w.content[c + |text|..] == m.content[..c] + m.content[c..];
    assert m.content[..c] + m.content[c..] == m.content;
  }

  /** The originator. */
  class TextEditor {
    var content: string
    var cursorPosition: int

    constructor ()
      ensures content == "" && cursorPosition == 0
    {
      content := "";
      cursorPosition := 0;
    }

    /** The editor's state as a value. */
    function State(): TextMemento
      reads this
    {
      TextMemento(content, cursorPosition)
    }

    /** write: false when the cursor is out of range (Java throws; nothing changes). */
    method Write(text: string) returns (ok: bool)
      modifies this
      ensures ok == Written(old(State()), text).Some?
      ensures ok ==> State() == Written(old(State()), text).value
      ensures !ok ==> State() == old(State())
    {
      if 0 <= cursorPosition <= |content| {
        var before := content[..cursorPosition];
        var after := content[cursorPosition..];
        content := before + text + after;
        cursorPosition := cursorPosition + |text|;
        ok := true;
      } else {
        ok := false;
      }
    }

    method SetCursor(position: int)
      modifies this
      ensures State() == CursorMoved(old(State()), position)
    {
      var p := if position < |content| then position else |content|;
      cursorPosition := if p < 0 then 0 else p;
    }

    /** delete: false when Java's substring would throw (nothing changes). */
    method Delete(count: Int32) returns (ok: bool)
      modifies this
      ensures ok == Deleted(old(State()), count).Some?
      ensures ok ==> State() == Deleted(old(State()), count).value
      ensures !ok ==> State() == old(State())
    {
      var d := Wrap32(cursorPosition - count as int) as int;
      var start := if d < 0 then 0 else d;
      if start <= |content| && 0 <= cursorPosition <= |content| {
        var before := content[..start];
        var after := content[cursorPosition..];
        content := before + after;
        cursorPosition := start;
        ok := true;
      } else {
        ok := false;
      }
    }

    /** save: a snapshot of exactly the current content and cursor. */
    method Save() returns (memento: TextMemento)
      ensures memento.content == content && memento.cursorPosition == cursorPosition
    {
      memento := TextMemento(content, cursorPosition);
    }

    /** restore: the editor takes the snapshot's content and cursor. */
    method Restore(memento: TextMemento)
      modifies this
      ensures content == memento.content && cursorPosition == memento.cursorPosition
    {
      content := memento.content;
      cursorPosition := memento.cursorPosition;
    }
  }

  /**
   * saveState's effect on the stack of snapshots: when it already holds
   * maxHistory or more, the oldest (index 0) goes first; then the new one is
   * pushed. Removing from an empty stack (possible only when maxHistory <= 0)
   * throws: None.
   */
  function Pushed(maxHistory: int, history: seq<TextMemento>, m: TextMemento): (r: Option<seq<TextMemento>>)
    ensures r.None? <==> |history| >= maxHistory && history == []
    ensures r.Some? ==> |r.value| > 0 && r.value[|r.value| - 1] == m
    ensures r.Some? && |history| < maxHistory ==>
      |r.value| == |history| + 1 && r.value[..|history|] == history
    ensures r.Some? && |history| >= maxHistory ==>
      |r.value| == |history| && r.value[..|history| - 1] == history[1..]
    ensures maxHistory >= 1 && |history| <= maxHistory ==> r.Some? && |r.value| <= maxHistory
  {
    if |history| >= maxHistory then
      if history == [] then None else Some(history[1..] + [m])
    else
      Some(history + [m])
  }

  /** The stack after pushing each of ms in turn, or None at the first failure. */
  function PushedAll(maxHistory: int, history: seq<TextMemento>, ms: seq<TextMemento>): (r: Option<seq<TextMemento>>)
    ensures r.None? ==> maxHistory <= 0
    ensures maxHistory >= 1 && |history| <= maxHistory ==> r.Some? && |r.value| <= maxHistory
    decreases |ms|
  {
    if ms == [] then Some(history)
    else
      match Pushed(maxHistory, history, ms[0])
      case None => None
      case Some(h) => PushedAll(maxHistory, h, ms[1..])
  }

  /** The newest n snapshots of ms (all of them when there are fewer). */
  function Newest(ms: seq<TextMemento>, n: nat): (r: seq<TextMemento>)
    ensures |r| == if |ms| < n then |ms| else n
  {
    if |ms| <= n then ms else ms[|ms| - n..]
  }

  /**
   * With maxHistory >= 1, a history holding at most maxHistory snapshots keeps,
   * after any run of saves, exactly the newest maxHistory snapshots of its old
   * content followed by the saved ones: the oldest are the ones dropped.
   */
  lemma {:induction false} SavesKeepNewest(maxHistory: int, history: seq<TextMemento>, ms: seq<TextMemento>)
    requires maxHistory >= 1 && |history| <= maxHistory
    ensures PushedAll(maxHistory, history, ms) == Some(Newest(history + ms, maxHistory))
    decreases |ms|
  {
    if ms == [] {
      assert history + ms == history;
    } else {
      var h := Pushed(maxHistory, history, ms[0]).value;
      assert h == Newest(history + [ms[0]], maxHistory);
      SavesKeepNewest(maxHistory, h, ms[1..]);
      NewestAppend(history + [ms[0]], ms[1..], maxHistory);
      assert history + [ms[0]] + ms[1..] == history + ms;
    }
  }

  lemma NewestAppend(a: seq<TextMemento>, b: seq<TextMemento>, n: nat)
    requires n >= 1
    ensures Newest(Newest(a, n) + b, n) == Newest(a + b, n)
  {
  }

  /** The caretaker: a stack of snapshots capped at maxHistory. */
  class EditorHistory {
    /** The Java Stack: the top is the last element. */
    var history: seq<TextMemento>
    const maxHistory: int

    /** The cap holds (with maxHistory <= 0 the stack stays empty). */
    ghost predicate Valid()
      reads this
    {
      history == [] || |history| <= maxHistory
    }

    constructor (maxHistory: int)
      ensures Valid() && history == [] && this.maxHistory == maxHistory
    {
      history := [];
      this.maxHistory := maxHistory;
    }

    /** saveState: false when the stack is empty and not below its cap (Java throws). */
    method SaveState(editor: TextEditor) returns (ok: bool)
      requires Valid()
      modifies this
      ensures Valid()
      ensures ok == Pushed(maxHistory, old(history), editor.State()).Some?
      ensures ok ==> history == Pushed(maxHistory, old(history), editor.State()).value
      ensures !ok ==> history == old(history)
    {
      if |history| >= maxHistory {
        if history == [] {
          return false;
        }
        history := history[1..];
      }
      var memento := editor.Save();
      history := history + [memento];
      ok := true;
    }

    /** undo: pops the newest snapshot into the editor; nothing happens on an empty stack. */
    method Undo(editor: TextEditor)
      requires Valid()
      modifies this, editor
      ensures Valid()
      ensures old(history) == [] ==> history == [] && editor.State() == old(editor.State())
      ensures old(history) != [] ==>
        && history == old(history)[..|old(history)| - 1]
        && editor.State() == old(history)[|old(history)| - 1]
    {
      if history != [] {
        var memento := history[|history| - 1];
        history := history[..|history| - 1];
        editor.Restore(memento);
      }
    }

    method CanUndo() returns (b: bool)
      ensures b <==> history != []
    {
      b := history != [];
    }

    method GetHistorySize() returns (n: nat)
      ensures n == |history|
    {
      n := |history|;
    }
  }

  /** The four writes of the demonstration, each at its cursor. */
  lemma DemoWrites()
    ensures Written(TextMemento("", 0), "Hello") == Some(TextMemento("Hello", 5))
    ensures Written(TextMemento("Hello", 5), " World") == Some(TextMemento("Hello World", 11))
    ensures Written(TextMemento("Hello World", 5), " Java") == Some(TextMemento("Hello Java World", 10))
    ensures Written(TextMemento("Hello Java World", 16), "!") == Some(TextMemento("Hello Java World!", 17))
  {
    assert ""[..0] + "Hello" + ""[0..] == "Hello";
    assert "Hello"[..5] + " World" + "Hello"[5..] == "Hello World";
    assert "Hello World"[..5] + " Java" + "Hello World"[5..] == "Hello Java World";
    assert "Hello Java World"[..16] + "!" + "Hello Java World"[16..] == "Hello Java World!";
  }

  /** The demonstration's first three saves: the empty editor, then "Hello", then "Hello World". */
  method FirstEdits() returns (editor: TextEditor, history: EditorHistory)
    ensures fresh(editor) && fresh(history) && history.Valid() && history.maxHistory == 5
    ensures editor.State() == TextMemento("Hello World", 11)
    ensures history.history == [TextMemento("", 0), TextMemento("Hello", 5), TextMemento("Hello World", 11)]
  {
    DemoWrites();
    editor := new TextEditor();
    history := new EditorHistory(5);
    var ok := history.SaveState(editor);
    ok := editor.Write("Hello");
    ok := history.SaveState(editor);
    ok := editor.Write(" World");
    ok := history.SaveState(editor);
  }

  /**
   * The demonstration's edits: five saves around four edits give
   * "Hello Java World!", and the history holds the five states, oldest first.
   */
  method EditingScenario() returns (editor: TextEditor, history: EditorHistory)
    ensures fresh(editor) && fresh(history) && history.Valid()
    ensures editor.content == "Hello Java World!"
    ensures |history.history| == 5 && history.history[0] == TextMemento("", 0)
  {
    DemoWrites();
    editor, history := FirstEdits();
    editor.SetCursor(5);
    var ok := editor.Write(" Java");
    ok := history.SaveState(editor);
    assert |history.history| == 4 && history.history[0] == TextMemento("", 0);
    editor.SetCursor(|editor.content|);
    ok := editor.Write("!");
    ok := history.SaveState(editor);
  }

  /**
   * The demonstration's undo loop: undoing while canUndo holds restores the
   * oldest saved state and empties the history; one more undo changes nothing.
   */
  method UndoAllScenario() returns (restored: string, cursor: int, size: nat)
    ensures restored == "" && cursor == 0 && size == 0
  {
    var editor, history := EditingScenario();
    ghost var saved := history.history;
    var more := history.CanUndo();
    while more
      invariant history.Valid() && |history.history| <= |saved|
      invariant history.history == saved[..|history.history|]
      invariant more <==> history.history != []
      invariant |history.history| < |saved| ==> editor.State() == saved[|history.history|]
      decreases |history.history|
    {
      history.Undo(editor);
      more := history.CanUndo();
    }
    history.Undo(editor);
    restored, cursor := editor.content, editor.cursorPosition;
    size := history.GetHistorySize();
  }
}
