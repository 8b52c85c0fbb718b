/** The script's prompts: the keystroke line editor of `get_input_with_timeout`
    (Windows), the `input()` fallback with its alarm (elsewhere), the answer
    normalisation of `get_user_input`, and the default run-folder name. */
module Prompt {
  import opened Text

  /** A key as `msvcrt.getche()` reports it, already decoded. The bytes
      `\r` and `\b` always arrive as `Enter` and `Backspace`, so a `Typed`
      key is meant to carry any other character. */
  datatype Key = Enter | Backspace | Typed(c: char)

  /** One thing that can happen while the editor polls: a key arrives, or the
      clock passes the timeout (the clock is not modelled otherwise). */
  datatype Event = Press(key: Key) | Deadline

  /** How the editor ends: Enter returns the buffer, the timeout returns the
      empty buffer, and an editor whose events run out is still waiting. */
  datatype Reading = Entered(text: string) | TimedOut | Waiting(text: string)

  datatype Option<T> = None | Some(value: T)

  /** What one key does to the buffer: Backspace is `input_string[:-1]`, a
      character is appended, and Enter leaves the buffer as it is. */
  function Edit(buf: string, k: Key): (r: string)
    ensures k == Enter ==> r == buf
    ensures k == Backspace && buf != [] ==> r + [buf[|buf| - 1]] == buf
    ensures k == Backspace && buf == [] ==> r == []
    ensures k.Typed? ==> |r| == |buf| + 1 && r[..|buf|] == buf && r[|buf|] == k.c
  {
    match k
    case Enter => buf
    case Backspace => if buf == [] then [] else buf[..|buf| - 1]
    case Typed(c) => buf + [c]
  }

  /** The editor run from buffer `buf`; `late` records that the timeout has
      passed. After every event the loop stops if the timeout has passed and
      the buffer is empty. */
  function Read(buf: string, late: bool, evs: seq<Event>): Reading
    decreases |evs|
  {
    if evs == [] then Waiting(buf)
    else match evs[0]
      case Press(Enter) => Entered(buf)
      case Press(k) =>
        var b := Edit(buf, k);
        if late && b == [] then TimedOut else Read(b, late, evs[1..])
      case Deadline => if buf == [] then TimedOut else Read(buf, true, evs[1..])
  }

  /** The Windows branch of `get_input_with_timeout`: poll events until Enter,
      or until the timeout has passed while the buffer is empty. */
  method GetInputWithTimeout(evs: seq<Event>) returns (r: Reading)
    ensures r == Read([], false, evs)
  {
    var inputString: string := [];
    var late := false;
    var i := 0;
    while i < |evs|
      invariant 0 <= i <= |evs|
      invariant Read(inputString, late, evs[i..]) == Read([], false, evs)
    {
      var ev := evs[i];
      if ev == Press(Enter) {
        return Entered(inputString);
      } else if ev == Press(Backspace) {
        inputString := if |inputString| == 0 then [] else inputString[..|inputString| - 1];
      } else if ev.Press? {
        inputString := inputString + [ev.key.c];
      } else {
        late := true;
      }
      if late && |inputString| == 0 {
        return TimedOut;
      }
      i := i + 1;
    }
    return Waiting(inputString);
  }

  /** The buffer after a run of keys, defined from the last key backwards. */
  function Buffer(ks: seq<Key>): string
  {
    if ks == [] then [] else Edit(Buffer(ks[..|ks| - 1]), ks[|ks| - 1])
  }

  function Presses(ks: seq<Key>): (evs: seq<Event>)
    ensures |evs| == |ks|
    ensures forall i :: 0 <= i < |ks| ==> evs[i] == Press(ks[i])
  {
    seq(|ks|, i requires 0 <= i < |ks| => Press(ks[i]))
  }

  lemma {:induction false} ReadKeys(pre: seq<Key>, ks: seq<Key>, rest: seq<Event>)
    requires Enter !in ks
    ensures Read(Buffer(pre), false, Presses(ks) + [Press(Enter)] + rest) == Entered(Buffer(pre + ks))
    decreases |ks|
  {
    if ks == [] {
      assert pre + ks == pre;
    } else {
      var evs := Presses(ks) + [Press(Enter)] + rest;
      assert evs[0] == Press(ks[0]);
      assert evs[1..] == Presses(ks[1..]) + [Press(Enter)] + rest;
      var pre' := pre + [ks[0]];
      assert pre'[..|pre'| - 1] == pre;
      assert Buffer(pre') == Edit(Buffer(pre), ks[0]);
      ReadKeys(pre', ks[1..], rest);
      assert pre' + ks[1..] == pre + ks;
    }
  }

  /** Before the timeout, Enter returns exactly the text the keys before it
      left in the buffer, and no later event matters. */
  lemma EnterReturnsBuffer(ks: seq<Key>, rest: seq<Event>)
    requires Enter !in ks
    ensures Read([], false, Presses(ks) + [Press(Enter)] + rest) == Entered(Buffer(ks))
  {
    ReadKeys([], ks, rest);
    assert [] + ks == ks;
  }

  function TypedKeys(cs: string): (ks: seq<Key>)
    ensures |ks| == |cs|
    ensures forall i :: 0 <= i < |cs| ==> ks[i] == Typed(cs[i])
  {
    seq(|cs|, i requires 0 <= i < |cs| => Typed(cs[i]))
  }

  /** Typing characters without Backspace leaves exactly those characters. */
  lemma {:induction false} TypedText(cs: string)
    ensures Buffer(TypedKeys(cs)) == cs
  {
    if cs != [] {
      var ks := TypedKeys(cs);
      assert ks[..|ks| - 1] == TypedKeys(cs[..|cs| - 1]);
      TypedText(cs[..|cs| - 1]);
      assert cs[..|cs| - 1] + [cs[|cs| - 1]] == cs;
    }
  }

  /** Backspace removes the character typed just before it. */
  lemma BackspaceUndoesTyping(ks: seq<Key>, c: char)
    ensures Buffer(ks + [Typed(c), Backspace]) == Buffer(ks)
  {
    var a := ks + [Typed(c)];
    assert (ks + [Typed(c), Backspace])[..|a|] == a;
    assert a[..|ks|] == ks;
  }

  /** Backspace on an empty buffer leaves it empty, as `''[:-1]` does. */
  lemma BackspaceOnEmpty(n: nat)
    ensures Buffer(seq(n, i => Backspace)) == []
  {
    if n > 0 {
      assert seq(n, i => Backspace)[..n - 1] == seq(n - 1, i => Backspace);
      BackspaceOnEmpty(n - 1);
    }
  }

  /** The editor only gives up on a timed-out, empty buffer: a run without the
      deadline never times out. */
  lemma {:induction false} TimeoutNeedsDeadline(buf: string, late: bool, evs: seq<Event>)
    requires Read(buf, late, evs) == TimedOut
    requires !late
    ensures Deadline in evs
    decreases |evs|
  {
    if evs != [] && evs[0] != Deadline {
      TimeoutNeedsDeadline(Edit(buf, evs[0].key), late, evs[1..]);
    }
  }

  /** Once the timeout has passed, a waiting editor always holds some text
      (an empty one would have stopped). */
  lemma {:induction false} LateBufferNotEmpty(buf: string, late: bool, evs: seq<Event>)
    requires late ==> buf != []
    requires Read(buf, late, evs).Waiting?
    requires late || Deadline in evs
    ensures Read(buf, late, evs).text != []
    decreases |evs|
  {
    if evs != [] {
      match evs[0]
      case Press(Enter) =>
      case Press(k) =>
        LateBufferNotEmpty(Edit(buf, k), late, evs[1..]);
      case Deadline =>
        LateBufferNotEmpty(buf, true, evs[1..]);
    }
  }

  /** A finished editor ignores any later keys. */
  lemma {:induction false} FinishedIgnoresLater(buf: string, late: bool, evs: seq<Event>, more: seq<Event>)
    requires !Read(buf, late, evs).Waiting?
    ensures Read(buf, late, evs + more) == Read(buf, late, evs)
    decreases |evs|
  {
    assert (evs + more)[0] == evs[0];
    assert (evs + more)[1..] == evs[1..] + more;
    match evs[0]
    case Press(Enter) =>
    case Press(k) =>
      var b := Edit(buf, k);
      if !(late && b == []) {
        FinishedIgnoresLater(b, late, evs[1..], more);
      }
    case Deadline =>
      if buf != [] {
        FinishedIgnoresLater(buf, true, evs[1..], more);
      }
  }

  function Backspaces(n: nat): (evs: seq<Event>)
    ensures |evs| == n
    ensures forall i :: 0 <= i < n ==> evs[i] == Press(Backspace)
  {
    seq(n, i => Press(Backspace))
  }

  /** After the timeout, erasing all the text in the buffer ends the prompt
      with the empty name, even though the user was still typing, and no
      later event matters. */
  lemma {:induction false} EraseAfterDeadline(buf: string, rest: seq<Event>)
    requires buf != []
    ensures Read(buf, true, Backspaces(|buf|) + rest) == TimedOut
    decreases |buf|
  {
    var evs := Backspaces(|buf|) + rest;
    var b := buf[..|buf| - 1];
    assert evs[0] == Press(Backspace);
    assert Edit(buf, Backspace) == b;
    if b != [] {
      assert evs[1..] == Backspaces(|b|) + rest;
      EraseAfterDeadline(b, rest);
    }
  }

  /** What `get_input_with_timeout` returns, once it returns. */
  function Answer(r: Reading): (a: Option<string>)
    ensures r.Waiting? <==> a.None?
    ensures r.TimedOut? ==> a == Some([])
    ensures r.Entered? ==> a == Some(r.text)
  {
    match r
    case Entered(t) => Some(t)
    case TimedOut => Some([])
    case Waiting(_) => None
  }

  /** The outcome of the alarm-guarded `input()` call of the name prompt: a
      line, or the alarm's `TimeoutError` raised while waiting. */
  datatype Line = Line(s: string) | AlarmFired

  /** The `except TimeoutError` of the name prompt turns the alarm into the
      empty name. */
  function LineAnswer(l: Line): (name: string)
    ensures l.AlarmFired? ==> name == []
    ensures l.Line? ==> name == l.s
  {
    match l
    case Line(s) => s
    case AlarmFired => []
  }

  /** `get_user_input`: the line typed, stripped and lower-cased. */
  function UserAnswer(line: string): (a: string)
    ensures |a| <= |line|
    ensures Trimmed(a)
    ensures forall i :: 0 <= i < |a| ==> !IsUpper(a[i])
    ensures a == [] <==> AllSpace(line)
  {
    var t := Strip(line);
    LowerKeepsSpace(t);
    LowerAt(t);
    Normalize(line)
  }

  const DefaultPrefix: string := "run_"

  /** The run-folder name: what was typed, or `run_<timestamp>` when nothing
      was. The timestamp is the formatted clock, passed in. */
  function FolderName(typed: string, timestamp: string): (name: string)
    ensures name != []
    ensures typed != [] ==> name == typed
    ensures typed == [] ==> |name| == |DefaultPrefix| + |timestamp| && name[..|DefaultPrefix|] == DefaultPrefix && name[|DefaultPrefix|..] == timestamp
  {
    if typed == [] then DefaultPrefix + timestamp else typed
  }

  /** A user who types nothing before the timeout gets `run_<timestamp>`. */
  lemma SilentUserGetsDefault(timestamp: string, rest: seq<Event>)
    ensures Answer(Read([], false, [Deadline] + rest)) == Some([])
    ensures FolderName(Answer(Read([], false, [Deadline] + rest)).value, timestamp) == DefaultPrefix + timestamp
  {
  }

  /** On the keystroke path, however the editor times out, the run folder is
      `run_<timestamp>`. */
  lemma EditorTimeoutIsDefault(evs: seq<Event>, timestamp: string)
    requires Read([], false, evs) == TimedOut
    ensures FolderName(Answer(Read([], false, evs)).value, timestamp) == DefaultPrefix + timestamp
  {
  }

  /** On the editor path, Enter after a non-empty buffer names the folder
      after that text, and Enter on an empty buffer gives the default. */
  lemma EditorEnterNamesFolder(evs: seq<Event>, timestamp: string)
    requires Read([], false, evs).Entered?
    ensures var t := Read([], false, evs).text;
      FolderName(Answer(Read([], false, evs)).value, timestamp) == if t == [] then DefaultPrefix + timestamp else t
  {
  }

  /** On the `input()` path, the alarm gives `run_<timestamp>` and a typed
      line names the folder, unless it is empty. */
  lemma AlarmIsDefault(l: Line, timestamp: string)
    ensures l.AlarmFired? ==> FolderName(LineAnswer(l), timestamp) == DefaultPrefix + timestamp
    ensures l.Line? && l.s != [] ==> FolderName(LineAnswer(l), timestamp) == l.s
    ensures l.Line? && l.s == [] ==> FolderName(LineAnswer(l), timestamp) == DefaultPrefix + timestamp
  {
  }
}
