// The terminal line editor of the POSIX console
// (neo/sys/posix/posix_console.cpp): a 64-slot command-history ring, the
// hide/show nesting counter that erases and redraws the edited line, and
// the byte-level decoder of keys and escape sequences read from a
// non-blocking stdin.
//
// stdin is the sequence of bytes still unread (an empty sequence is a read
// that returns -1); everything written to the terminal is appended to an
// output log. The edit field's own key handling (CharEvent, KeyDownEvent,
// AutoComplete) lives in idEditField, which is not part of this model: it is
// a function parameter `apply`.
module PosixConsole {
  import opened Wrappers
  import opened CChar

  const COMMAND_HISTORY: int := 64
  /** sizeof(console.input_ret): Copynz keeps at most 255 characters and the terminator. */
  const INPUT_RET_SIZE: int := 256

  function Min(a: int, b: int): int { if a < b then a else b }

  // ---------------------------------------------------------------------
  // The edit field

  /** The part of idEditField the console reads: its text and cursor. */
  datatype EditField = EditField(buffer: string, cursor: int)

  /** What the console asks of idEditField beyond moving the cursor. */
  datatype FieldKey = Ins | Del | RightArrow | LeftArrow
  datatype EditOp = Backspace | CharEvent(ch: int) | KeyDownEvent(key: FieldKey) | AutoComplete

  /** idStr::Copynz into a 256-byte buffer. */
  function Truncate(s: string): (t: string)
    ensures |t| < INPUT_RET_SIZE && |t| <= |s| && t == s[..|t|] && (|s| < INPUT_RET_SIZE ==> t == s)
  {
    if |s| < INPUT_RET_SIZE then s else s[..INPUT_RET_SIZE - 1]
  }

  function ClearField(): EditField { EditField("", 0) }

  /** idEditField::SetBuffer: the text (cut to the field's 256 bytes) with the cursor at its end. */
  function SetBuffer(s: string): (f: EditField)
    ensures f.buffer == Truncate(s) && f.cursor == |f.buffer|
  {
    EditField(Truncate(s), |Truncate(s)|)
  }

  // ---------------------------------------------------------------------
  // The console state

  /** What the terminal is sent: ESC [ C, the three bytes "\b \b", a lone '\b', text, and the drop reports. */
  datatype TermOut = CursorRight | EraseLeft | CursorLeft | Text(s: string) | Report(sequence: seq<int>) | Flushed(key: int) | FlushEnd

  /** The posix_console_t struct, with stdin and the output log. */
  datatype Con = Con(ttyEnabled: bool, inputHide: int, historyCount: int, historyStart: int, historyCurrent: int,
                     inputRet: string, field: EditField, backup: EditField, history: seq<string>,
                     stdin: seq<Byte>, out: seq<TermOut>)

  /** The entries in use: min(COMMAND_HISTORY, history_count). */
  function Used(s: Con): int { Min(COMMAND_HISTORY, s.historyCount) }

  /** What the console code keeps true of its struct. */
  predicate ConOk(s: Con) {
    |s.history| == COMMAND_HISTORY && 0 <= s.historyCount <= COMMAND_HISTORY
    && 0 <= s.historyStart < COMMAND_HISTORY && (s.historyCount < COMMAND_HISTORY ==> s.historyStart == 0)
    && 0 <= s.historyCurrent <= Used(s) && s.inputHide >= 0
  }

  /** The committed lines still held, oldest first. */
  function Recent(s: Con): (r: seq<string>)
    requires ConOk(s)
    ensures |r| == Used(s)
  {
    seq(Used(s), k requires 0 <= k < Used(s) => s.history[(s.historyStart + k) % COMMAND_HISTORY])
  }

  function Repeat(o: TermOut, n: int): (r: seq<TermOut>)
    ensures |r| == (if n > 0 then n else 0) && forall i :: 0 <= i < |r| ==> r[i] == o
  {
    seq(if n > 0 then n else 0, _ => o)
  }

  lemma RepeatSnoc(o: TermOut, n: nat)
    ensures Repeat(o, n + 1) == Repeat(o, n) + [o]
  {
  }

  // ---------------------------------------------------------------------
  // tty_Hide and tty_Show

  /** tty_Hide: the outermost call moves to the line's end and erases it; inner calls only count. */
  function Hide(s: Con): Con {
    if !s.ttyEnabled then s
    else if s.inputHide != 0 then s.(inputHide := s.inputHide + 1)
    else
      var len := |s.field.buffer|;
      s.(out := s.out + Repeat(CursorRight, len - s.field.cursor) + Repeat(EraseLeft, len), inputHide := 1)
  }

  /** tty_Show: the outermost call writes the line back and steps back to the cursor. */
  function Show(s: Con): Con
    requires s.ttyEnabled ==> s.inputHide > 0
  {
    if !s.ttyEnabled then s
    else if s.inputHide - 1 != 0 || |s.field.buffer| == 0 then s.(inputHide := s.inputHide - 1)
    else
      var len := |s.field.buffer|;
      s.(inputHide := 0, out := s.out + [Text(s.field.buffer)] + Repeat(CursorLeft, len - s.field.cursor))
  }

  /** Hide and Show nest: each changes the counter by one and touches the terminal only at the outermost level. */
  lemma HideShowNesting(s: Con)
    requires ConOk(s)
    ensures var h := Hide(s);
      (s.ttyEnabled ==> h.inputHide == s.inputHide + 1 && Show(h).inputHide == s.inputHide)
      && (h.out != s.out ==> s.ttyEnabled && s.inputHide == 0)
      && (Show(h).out != h.out ==> s.ttyEnabled && s.inputHide == 0)
      && (!s.ttyEnabled ==> h == s && Show(h) == s)
      && Show(h).field == s.field && Show(h).history == s.history
  {
  }

  // A terminal: the characters on the current line and the cursor column.
  datatype Screen = Screen(line: string, col: int)

  function Play(t: Screen, outs: seq<TermOut>): Screen
    decreases |outs|
  {
    if |outs| == 0 then t else Play(Effect(t, outs[0]), outs[1..])
  }

  /** What each tty write does to the line; drop reports go through Sys_Printf and are not drawn here. */
  function Effect(t: Screen, o: TermOut): Screen {
    match o
    case CursorRight => t.(col := t.col + 1)
    case CursorLeft => if t.col > 0 then t.(col := t.col - 1) else t
    case EraseLeft =>
      if 0 < t.col <= |t.line| then Screen(t.line[t.col - 1 := ' '], t.col - 1) else t
    case Text(str) =>
      if 0 <= t.col <= |t.line| then
        Screen(t.line[..t.col] + str + (if t.col + |str| < |t.line| then t.line[t.col + |str|..] else ""), t.col + |str|)
      else t
    case _ => t
  }

  function Blanks(n: nat): string { seq(n, _ => ' ') }

  lemma {:induction false} PlayAppend(t: Screen, a: seq<TermOut>, b: seq<TermOut>)
    ensures Play(t, a + b) == Play(Play(t, a), b)
    decreases |a|
  {
    if |a| == 0 {
      assert a + b == b;
    } else {
      assert (a + b)[0] == a[0];
      assert (a + b)[1..] == a[1..] + b;
      PlayAppend(Effect(t, a[0]), a[1..], b);
    }
  }

  lemma {:induction false} PlayMoves(t: Screen, o: TermOut, n: nat)
    requires o == CursorRight || (o == CursorLeft && n <= t.col)
    ensures Play(t, Repeat(o, n)) == t.(col := if o == CursorRight then t.col + n else t.col - n)
    decreases n
  {
    if n > 0 {
      assert Repeat(o, n)[1..] == Repeat(o, n - 1);
      PlayMoves(Effect(t, o), o, n - 1);
    }
  }

  /** n deletions from column n blank the first n characters and end at column 0. */
  lemma {:induction false} PlayDels(line: string, n: nat)
    requires n <= |line|
    ensures Play(Screen(line, n), Repeat(EraseLeft, n)) == Screen(Blanks(n) + line[n..], 0)
    decreases n
  {
    if n > 0 {
      assert Repeat(EraseLeft, n)[1..] == Repeat(EraseLeft, n - 1);
      var line2 := line[n - 1 := ' '];
      assert Effect(Screen(line, n), EraseLeft) == Screen(line2, n - 1);
      PlayDels(line2, n - 1);
      assert Blanks(n - 1) + line2[n - 1..] == Blanks(n) + line[n..];
    }
  }

  /** The outermost Hide leaves the terminal line blank with the cursor at column 0. */
  lemma HideBlanks(s: Con)
    requires ConOk(s) && s.ttyEnabled && s.inputHide == 0
    requires 0 <= s.field.cursor <= |s.field.buffer|
    ensures var h := Hide(s);
      Play(Screen(s.field.buffer, s.field.cursor), h.out[|s.out|..]) == Screen(Blanks(|s.field.buffer|), 0)
  {
    var buf, cur := s.field.buffer, s.field.cursor;
    var len := |buf|;
    assert Hide(s).out[|s.out|..] == Repeat(CursorRight, len - cur) + Repeat(EraseLeft, len);
    PlayAppend(Screen(buf, cur), Repeat(CursorRight, len - cur), Repeat(EraseLeft, len));
    PlayMoves(Screen(buf, cur), CursorRight, len - cur);
    PlayDels(buf, len);
    assert buf[len..] == "";
  }

  /** The matching Show draws the edited text back over the blanks, the cursor where the field's cursor is. */
  lemma ShowRedraws(h: Con)
    requires ConOk(h) && h.ttyEnabled && h.inputHide == 1
    requires 0 <= h.field.cursor <= |h.field.buffer|
    ensures Play(Screen(Blanks(|h.field.buffer|), 0), Show(h).out[|h.out|..]) == Screen(h.field.buffer, h.field.cursor)
  {
    var buf, cur := h.field.buffer, h.field.cursor;
    var len := |buf|;
    if len > 0 {
      assert Show(h).out[|h.out|..] == [Text(buf)] + Repeat(CursorLeft, len - cur);
      PlayAppend(Screen(Blanks(len), 0), [Text(buf)], Repeat(CursorLeft, len - cur));
      assert Play(Screen(Blanks(len), 0), [Text(buf)]) == Screen(buf, len) by {
        assert Blanks(len)[..0] + buf + "" == buf;
      }
      PlayMoves(Screen(buf, len), CursorLeft, len - cur);
    }
  }

  /** Hide then Show round-trips the terminal line: blank in between, the edited text and cursor after. */
  lemma HideShowRedraw(s: Con)
    requires ConOk(s) && s.ttyEnabled && s.inputHide == 0
    requires 0 <= s.field.cursor <= |s.field.buffer|
    ensures var h := Hide(s); var len := |s.field.buffer|;
      Play(Screen(s.field.buffer, s.field.cursor), h.out[|s.out|..]) == Screen(Blanks(len), 0)
      && Play(Screen(Blanks(len), 0), Show(h).out[|h.out|..]) == Screen(s.field.buffer, s.field.cursor)
  {
    HideBlanks(s);
    ShowRedraws(Hide(s));
  }

  // ---------------------------------------------------------------------
  // The history ring

  /** The history part of the '\n' case: append while fewer than 64 lines are held, else overwrite the oldest. */
  function Commit(s: Con, line: string): Con
    requires ConOk(s)
  {
    if s.historyCount < COMMAND_HISTORY then
      s.(history := s.history[s.historyCount := line], historyCount := s.historyCount + 1, historyCurrent := 0)
    else
      s.(history := s.history[s.historyStart := line], historyStart := (s.historyStart + 1) % COMMAND_HISTORY,
         historyCurrent := 0)
  }

  /**
   * Committing keeps the ring's invariant and appends the line to the held
   * lines, dropping the oldest once 64 are held; navigation starts again
   * from the edit line.
   */
  lemma CommitRecent(s: Con, line: string)
    requires ConOk(s)
    ensures var r := Commit(s, line);
      ConOk(r) && r.historyCurrent == 0
      && Recent(r) == (if Used(s) < COMMAND_HISTORY then Recent(s) else Recent(s)[1..]) + [line]
  {
    if s.historyCount < COMMAND_HISTORY {
      CommitAppends(s, line);
    } else {
      CommitOverwrites(s, line);
    }
  }

  lemma CommitAppends(s: Con, line: string)
    requires ConOk(s) && s.historyCount < COMMAND_HISTORY
    ensures var r := Commit(s, line); ConOk(r) && Recent(r) == Recent(s) + [line]
  {
    var r := Commit(s, line);
    assert Used(r) == Used(s) + 1 && r.historyStart == 0 && s.historyStart == 0;
    forall k | 0 <= k < Used(r) ensures Recent(r)[k] == (Recent(s) + [line])[k] {
      assert k % COMMAND_HISTORY == k;
    }
  }

  lemma CommitOverwrites(s: Con, line: string)
    requires ConOk(s) && s.historyCount == COMMAND_HISTORY
    ensures var r := Commit(s, line); ConOk(r) && Recent(r) == Recent(s)[1..] + [line]
  {
    var r := Commit(s, line);
    var st := s.historyStart;
    assert Used(r) == COMMAND_HISTORY && Used(s) == COMMAND_HISTORY;
    forall k | 0 <= k < COMMAND_HISTORY ensures Recent(r)[k] == (Recent(s)[1..] + [line])[k] {
      var j := (r.historyStart + k) % COMMAND_HISTORY;
      if k < COMMAND_HISTORY - 1 {
        assert j == (st + k + 1) % COMMAND_HISTORY;
        assert j != st;
      } else {
        assert j == st;
      }
    }
  }

  /** An up (65) or down (66) arrow: step history_current round 0 .. min(64, history_count) and load that line. */
  function Navigate(s: Con, up: bool): Con
    requires ConOk(s)
  {
    var s1 := if s.historyCurrent == 0 then s.(backup := s.field) else s;
    var stepped := if up then s.historyCurrent + 1 else s.historyCurrent - 1;
    var current := if stepped < 0 then Used(s) else stepped % (Used(s) + 1);
    if current == 0 then s1.(historyCurrent := 0, field := s1.backup)
    else
      var index := (s.historyStart + Used(s) - current) % COMMAND_HISTORY;
      s1.(historyCurrent := current, field := SetBuffer(s.history[index]))
  }

  lemma ModSmall(x: int, n: int)
    requires 0 <= x <= n
    ensures x % (n + 1) == x
  {
  }

  /**
   * Navigation wraps round 0 .. min(64, history_count): up steps to the
   * next older line and from the oldest back to 0, down steps to the next
   * newer line and from 0 round to the oldest; the slot read lies in
   * [0, 64) as the source asserts, and position 0 shows the line that was
   * being edited when navigation started.
   */
  lemma NavigateMeaning(s: Con, up: bool)
    requires ConOk(s)
    ensures var r := Navigate(s, up); var m := Used(s);
      ConOk(r) && r.history == s.history && Used(r) == m
      && r.historyCurrent == (if up then (if s.historyCurrent < m then s.historyCurrent + 1 else 0)
                              else (if s.historyCurrent > 0 then s.historyCurrent - 1 else m))
      && 0 <= s.historyStart + m - r.historyCurrent
      && r.backup == (if s.historyCurrent == 0 then s.field else s.backup)
      && (r.historyCurrent == 0 ==> r.field == r.backup)
  {
    var m := Used(s);
    if up {
      if s.historyCurrent < m {
        ModSmall(s.historyCurrent + 1, m);
      } else {
        assert (m + 1) % (m + 1) == 0;
      }
    } else if s.historyCurrent > 0 {
      ModSmall(s.historyCurrent - 1, m);
    }
  }

  lemma NavigateOk(s: Con, up: bool)
    requires ConOk(s)
    ensures ConOk(Navigate(s, up))
  {
    NavigateMeaning(s, up);
  }

  /** Position k > 0 shows the k-th most recent held line. */
  lemma NavigateShows(s: Con, up: bool)
    requires ConOk(s)
    ensures var r := Navigate(s, up);
      r.historyCurrent != 0 ==> r.field == SetBuffer(Recent(s)[Used(s) - r.historyCurrent])
  {
    NavigateMeaning(s, up);
  }

  /** Up then down, or down then up, comes back to the same position and the same field. */
  lemma NavigateInverse(s: Con, up: bool)
    requires ConOk(s)
    ensures var r := Navigate(Navigate(s, up), !up);
      r.historyCurrent == s.historyCurrent
      && (s.historyCurrent == 0 ==> r.field == s.field)
  {
    NavigateMeaning(s, up);
    NavigateMeaning(Navigate(s, up), !up);
  }

  // ---------------------------------------------------------------------
  // Decoding stdin

  /** What one key or escape sequence asks for; Drop carries the bytes the drop message reports. */
  datatype Key = Home | End | Edit(op: EditOp) | Enter | Up | Down | Drop(report: seq<int>)

  /** One key from stdin and the bytes left unread; read failures inside a sequence drop it. */
  function Decode(input: seq<Byte>): (r: (Key, seq<Byte>))
    requires |input| > 0
    ensures |r.1| < |input| && r.1 == input[|input| - |r.1|..]
  {
    var k := Signed(input[0]);
    var rest := input[1..];
    if k == 1 then (Home, rest)
    else if k == 5 then (End, rest)
    else if k == 127 || k == 8 then (Edit(Backspace), rest)
    else if k == 10 then (Enter, rest)
    else if k == 9 then (Edit(AutoComplete), rest)
    else if k == 27 then DecodeEscape(rest)
    else if k >= 32 then (Edit(CharEvent(k)), rest)
    else (Drop([k]), rest)
  }

  /** After ESC: "O" (79) and "[" (91) open the two recognised families. */
  function DecodeEscape(rest: seq<Byte>): (r: (Key, seq<Byte>))
    ensures |r.1| <= |rest| && r.1 == rest[|rest| - |r.1|..]
  {
    if |rest| == 0 then (Drop([27]), rest)
    else
      var k := Signed(rest[0]);
      var r2 := rest[1..];
      if k == 79 then
        if |r2| == 0 then (Drop([27, 79]), r2)
        else
          var k3 := Signed(r2[0]);
          if k3 == 72 then (Home, r2[1..])
          else if k3 == 70 then (End, r2[1..])
          else (Drop([27, 79, k3]), r2[1..])
      else if k == 91 then DecodeBracket(r2)
      else (Drop([27, k]), r2)
  }

  /** After ESC [: the arrows, and 1~ 2~ 3~ 4~. A failed read of the "~" leaves the previous byte in key, which the report repeats. */
  function DecodeBracket(r2: seq<Byte>): (r: (Key, seq<Byte>))
    ensures |r.1| <= |r2| && r.1 == r2[|r2| - |r.1|..]
  {
    if |r2| == 0 then (Drop([27, 91]), r2)
    else
      var k := Signed(r2[0]);
      var r3 := r2[1..];
      if k == 49 || k == 50 || k == 52 then
        if |r3| == 0 then (Drop([27, 91, k, k]), r3)
        else if Signed(r3[0]) != 126 then (Drop([27, 91, k, Signed(r3[0])]), r3[1..])
        else (if k == 49 then Home else if k == 50 then Edit(KeyDownEvent(Ins)) else End, r3[1..])
      else if k == 51 then
        if |r3| == 0 then (Drop([27, 91, 51]), r3)
        else if Signed(r3[0]) == 126 then (Edit(KeyDownEvent(Del)), r3[1..])
        else (Drop([27, 91, 51, Signed(r3[0])]), r3[1..])
      else if k == 65 then (Up, r3)
      else if k == 66 then (Down, r3)
      else if k == 67 then (Edit(KeyDownEvent(RightArrow)), r3)
      else if k == 68 then (Edit(KeyDownEvent(LeftArrow)), r3)
      else (Drop([27, 91, k]), r3)
  }

  /** The table of recognised byte sequences, written independently of the decoder. */
  function Known(q: seq<Byte>): Option<Key> {
    if q == [1] || q == [27, 91, 49, 126] || q == [27, 79, 72] then Some(Home)
    else if q == [5] || q == [27, 91, 52, 126] || q == [27, 79, 70] then Some(End)
    else if q == [127] || q == [8] then Some(Edit(Backspace))
    else if q == [10] then Some(Enter)
    else if q == [9] then Some(Edit(AutoComplete))
    else if q == [27, 91, 65] then Some(Up)
    else if q == [27, 91, 66] then Some(Down)
    else if q == [27, 91, 67] then Some(Edit(KeyDownEvent(RightArrow)))
    else if q == [27, 91, 68] then Some(Edit(KeyDownEvent(LeftArrow)))
    else if q == [27, 91, 50, 126] then Some(Edit(KeyDownEvent(Ins)))
    else if q == [27, 91, 51, 126] then Some(Edit(KeyDownEvent(Del)))
    else if |q| == 1 && 32 <= q[0] < 127 then Some(Edit(CharEvent(q[0])))
    else None
  }

  /** Every recognised sequence decodes to its key, whatever follows it. */
  lemma DecodeKnown(q: seq<Byte>, rest: seq<Byte>)
    requires Known(q).Some?
    ensures Decode(q + rest) == (Known(q).value, rest)
  {
    var input := q + rest;
    assert input[0] == q[0] && input[1..] == q[1..] + rest;
    if |q| == 3 {
      DecodeKnown3(q, rest);
    } else if |q| == 4 {
      DecodeKnown4(q, rest);
    }
  }

  lemma DecodeKnown3(q: seq<Byte>, rest: seq<Byte>)
    requires Known(q).Some? && |q| == 3
    ensures DecodeEscape(q[1..] + rest) == (Known(q).value, rest)
  {
    var r := q[1..] + rest;
    assert r[0] == q[1] && r[1..] == q[2..] + rest;
    assert r[1..][0] == q[2] && r[1..][1..] == rest;
  }

  lemma DecodeKnown4(q: seq<Byte>, rest: seq<Byte>)
    requires Known(q).Some? && |q| == 4
    ensures DecodeEscape(q[1..] + rest) == (Known(q).value, rest)
  {
    var r := q[1..] + rest;
    assert r[0] == q[1] && r[1..] == q[2..] + rest;
    var r2 := r[1..];
    assert r2[0] == q[2] && r2[1..] == q[3..] + rest;
    assert r2[1..][0] == q[3] && r2[1..][1..] == rest;
  }

  /** And nothing else is recognised: a key other than Drop consumed exactly one recognised sequence. */
  lemma DecodeOnlyKnown(input: seq<Byte>)
    requires |input| > 0
    ensures var r := Decode(input); var q := input[..|input| - |r.1|];
      !r.0.Drop? ==> Known(q) == Some(r.0)
  {
    var r := Decode(input);
    if !r.0.Drop? {
      if input[0] == 27 {
        EscapeOnlyKnown(input);
      } else {
        assert r.1 == input[1..];
        assert input[..1] == [input[0]];
      }
    }
  }

  lemma EscapeOnlyKnown(input: seq<Byte>)
    requires |input| > 0 && input[0] == 27
    ensures var r := DecodeEscape(input[1..]); var q := input[..|input| - |r.1|];
      !r.0.Drop? ==> Known(q) == Some(r.0)
  {
    var rest := input[1..];
    if |rest| == 0 {
      assert DecodeEscape(rest).0 == Drop([27]);
    } else if rest[0] != 79 && rest[0] != 91 {
      assert DecodeEscape(rest).0 == Drop([27, Signed(rest[0])]);
    } else if |rest| == 1 {
      assert DecodeEscape(rest).0.Drop?;
    } else if rest[0] == 79 {
      OLetterOnlyKnown(input);
    } else {
      BracketOnlyKnown(input);
    }
  }

  lemma OLetterOnlyKnown(input: seq<Byte>)
    requires |input| >= 3 && input[0] == 27 && input[1] == 79
    ensures var r := DecodeEscape(input[1..]); var q := input[..|input| - |r.1|];
      !r.0.Drop? ==> Known(q) == Some(r.0)
  {
    var r := DecodeEscape(input[1..]);
    assert input[1..][0] == 79 && input[1..][1..] == input[2..];
    assert input[2..][1..] == input[3..];
    if !r.0.Drop? {
      assert r.1 == input[3..];
      assert input[..3] == [27, 79, input[2]];
    }
  }

  lemma BracketOnlyKnown(input: seq<Byte>)
    requires |input| >= 3 && input[0] == 27 && input[1] == 91
    ensures var r := DecodeBracket(input[2..]); var q := input[..|input| - |r.1|];
      !r.0.Drop? ==> Known(q) == Some(r.0)
  {
    var r2 := input[2..];
    assert r2[0] == input[2] && r2[1..] == input[3..];
    var c := input[2];
    if 65 <= c <= 68 {
      ArrowOnlyKnown(input);
    } else if (c == 49 || c == 50 || c == 51 || c == 52) && |input| >= 4 && input[3] == 126 {
      TildeOnlyKnown(input);
    } else if c == 49 || c == 50 || c == 51 || c == 52 {
      assert DecodeBracket(r2).0.Drop?;
    } else {
      assert DecodeBracket(r2).0 == Drop([27, 91, Signed(c)]);
    }
  }

  lemma ArrowOnlyKnown(input: seq<Byte>)
    requires |input| >= 3 && input[0] == 27 && input[1] == 91 && 65 <= input[2] <= 68
    ensures var r := DecodeBracket(input[2..]); r.1 == input[3..] && Known(input[..3]) == Some(r.0)
  {
    var r2 := input[2..];
    assert r2[0] == input[2] && r2[1..] == input[3..];
    var q := input[..3];
    assert q == [27, 91, input[2]];
    if input[2] == 65 {
      assert Known(q) == Some(Up);
    } else if input[2] == 66 {
      assert Known(q) == Some(Down);
    } else if input[2] == 67 {
      assert Known(q) == Some(Edit(KeyDownEvent(RightArrow)));
    } else {
      assert Known(q) == Some(Edit(KeyDownEvent(LeftArrow)));
    }
  }

  lemma TildeOnlyKnown(input: seq<Byte>)
    requires |input| >= 4 && input[0] == 27 && input[1] == 91 && 49 <= input[2] <= 52 && input[3] == 126
    ensures var r := DecodeBracket(input[2..]); r.1 == input[4..] && Known(input[..4]) == Some(r.0)
  {
    var r2 := input[2..];
    assert r2[0] == input[2] && r2[1..] == input[3..];
    assert r2[1..][0] == 126 && r2[1..][1..] == input[4..];
    var q := input[..4];
    assert q == [27, 91, input[2], 126];
    if input[2] == 49 {
      assert Known(q) == Some(Home);
    } else if input[2] == 50 {
      assert Known(q) == Some(Edit(KeyDownEvent(Ins)));
    } else if input[2] == 51 {
      assert Known(q) == Some(Edit(KeyDownEvent(Del)));
    } else {
      assert Known(q) == Some(End);
    }
  }

  // ---------------------------------------------------------------------
  // Posix_ConsoleInput

  function FlushReports(bs: seq<Byte>): (r: seq<TermOut>)
    ensures |r| == |bs| && forall i :: 0 <= i < |bs| ==> r[i] == Flushed(Signed(bs[i]))
  {
    seq(|bs|, i requires 0 <= i < |bs| => Flushed(Signed(bs[i])))
  }

  /** tty_FlushIn: every byte still readable is read and reported, then a newline. */
  function Flush(s: Con): Con {
    s.(stdin := [], out := s.out + FlushReports(s.stdin) + [FlushEnd])
  }

  /** The body of the read loop from a state with the line hidden (hidden) or not yet hidden. */
  function InputLoop(s: Con, hidden: bool, apply: (EditField, EditOp) -> EditField): (r: (Con, Option<string>))
    requires ConOk(s) && s.ttyEnabled && (hidden ==> s.inputHide > 0)
    decreases |s.stdin|, 0
  {
    if |s.stdin| == 0 then (if hidden then Show(s) else s, None)
    else
      var s1 := if hidden then s else Hide(s);
      var d := Decode(s.stdin);
      OnKey(s1.(stdin := d.1), d.0, apply)
  }

  /** What one decoded key does, the line being hidden. */
  function OnKey(s: Con, key: Key, apply: (EditField, EditOp) -> EditField): (r: (Con, Option<string>))
    requires ConOk(s) && s.ttyEnabled && s.inputHide > 0
    decreases |s.stdin|, 1
  {
    match key
    case Home => InputLoop(s.(field := s.field.(cursor := 0)), true, apply)
    case End => InputLoop(s.(field := s.field.(cursor := |s.field.buffer|)), true, apply)
    case Edit(op) => InputLoop(s.(field := apply(s.field, op)), true, apply)
    case Enter =>
      var line := Truncate(s.field.buffer);
      var s3 := Show(s.(inputRet := line));
      (Commit(s3.(out := s3.out + [Text("\n")], field := ClearField()), line), Some(line))
    case Up => (Show(Navigate(s, true)), None)
    case Down => (Show(Navigate(s, false)), None)
    case Drop(report) => (Show(Flush(s.(out := s.out + [Report(report)]))), None)
  }

  /** Posix_ConsoleInput: the committed line, if a complete one was read. The non-tty path is not modelled. */
  function Input(s: Con, apply: (EditField, EditOp) -> EditField): (Con, Option<string>)
    requires ConOk(s)
  {
    if s.ttyEnabled then InputLoop(s, false, apply) else (s, None)
  }

  /** What a call of the loop promises: see InputLoopMeaning. */
  predicate LoopPost(s: Con, level: int, r: (Con, Option<string>)) {
    ConOk(r.0) && r.0.inputHide == level && (|r.0.stdin| <= |s.stdin|)
    && (r.1.Some? ==>
          (|r.1.value| < INPUT_RET_SIZE) && (|Recent(r.0)| > 0) && r.0.inputRet == r.1.value && r.0.field == ClearField()
          && Recent(r.0)[|Recent(r.0)| - 1] == r.1.value)
  }

  /** Show undoes one level of hiding and changes nothing but the counter and the output. */
  lemma ShowFrame(s: Con)
    requires ConOk(s) && s.ttyEnabled && s.inputHide > 0
    ensures var r := Show(s); ConOk(r) && r == s.(inputHide := s.inputHide - 1, out := r.out)
  {
  }

  /**
   * A call leaves the line shown as it found it (the hide counter back where
   * it was), keeps the ring's invariant, and returns a line exactly when it
   * read an Enter; that line is the edited text cut to 255 characters and
   * becomes the most recent history entry, and the edit field is then empty.
   */
  lemma {:induction false} InputLoopMeaning(s: Con, hidden: bool, apply: (EditField, EditOp) -> EditField)
    requires ConOk(s) && s.ttyEnabled && (hidden ==> s.inputHide > 0)
    ensures LoopPost(s, if hidden then s.inputHide - 1 else s.inputHide, InputLoop(s, hidden, apply))
    decreases |s.stdin|, 0
  {
    if |s.stdin| == 0 {
      if hidden {
        ShowFrame(s);
      }
    } else {
      var s1 := if hidden then s else Hide(s);
      var d := Decode(s.stdin);
      var s2 := s1.(stdin := d.1);
      assert ConOk(s2) && s2.inputHide > 0 && s2.inputHide - 1 == (if hidden then s.inputHide - 1 else s.inputHide);
      OnKeyMeaning(s2, d.0, apply);
    }
  }

  lemma {:induction false} OnKeyMeaning(s: Con, key: Key, apply: (EditField, EditOp) -> EditField)
    requires ConOk(s) && s.ttyEnabled && s.inputHide > 0
    ensures LoopPost(s, s.inputHide - 1, OnKey(s, key, apply))
    decreases |s.stdin|, 1
  {
    match key
    case Home => InputLoopMeaning(s.(field := s.field.(cursor := 0)), true, apply);
    case End => InputLoopMeaning(s.(field := s.field.(cursor := |s.field.buffer|)), true, apply);
    case Edit(op) => InputLoopMeaning(s.(field := apply(s.field, op)), true, apply);
    case Enter => EnterMeaning(s, apply);
    case Up => ArrowMeaning(s, true, apply);
    case Down => ArrowMeaning(s, false, apply);
    case Drop(report) => ShowFrame(Flush(s.(out := s.out + [Report(report)])));
  }

  lemma EnterMeaning(s: Con, apply: (EditField, EditOp) -> EditField)
    requires ConOk(s) && s.ttyEnabled && s.inputHide > 0
    ensures LoopPost(s, s.inputHide - 1, OnKey(s, Enter, apply))
  {
    var line := Truncate(s.field.buffer);
    ShowFrame(s.(inputRet := line));
    var s3 := Show(s.(inputRet := line));
    CommitRecent(s3.(out := s3.out + [Text("\n")], field := ClearField()), line);
  }

  lemma ArrowMeaning(s: Con, up: bool, apply: (EditField, EditOp) -> EditField)
    requires ConOk(s) && s.ttyEnabled && s.inputHide > 0
    ensures LoopPost(s, s.inputHide - 1, OnKey(s, if up then Up else Down, apply))
  {
    NavigateMeaning(s, up);
    ShowFrame(Navigate(s, up));
  }

  // ---------------------------------------------------------------------
  // The console as the source keeps it

  class Console {
    var ttyEnabled: bool
    var inputHide: int
    var historyCount: int
    var historyStart: int
    var historyCurrent: int
    var inputRet: string
    var field: EditField
    var backup: EditField
    var history: array<string>
    var stdin: seq<Byte>
    var out: seq<TermOut>

    function Snapshot(): Con
      reads this, history
    {
      Con(ttyEnabled, inputHide, historyCount, historyStart, historyCurrent, inputRet, field, backup, history[..], stdin, out)
    }

    ghost predicate Valid()
      reads this, history
    {
      ConOk(Snapshot())
    }

    /** The static initialiser: nothing held, nothing hidden. */
    constructor (tty: bool, input: seq<Byte>)
      ensures Valid() && fresh(history)
      ensures Snapshot() == Con(tty, 0, 0, 0, 0, "", ClearField(), ClearField(), seq(COMMAND_HISTORY, _ => ""), input, [])
    {
      ttyEnabled, inputHide, historyCount, historyStart, historyCurrent := tty, 0, 0, 0, 0;
      inputRet, field, backup := "", ClearField(), ClearField();
      history := new string[COMMAND_HISTORY](_ => "");
      stdin, out := input, [];
    }
  }

  /** tty_Hide. */
  method TtyHide(c: Console)
    requires c.Valid()
    modifies c
    ensures c.Valid() && c.history == old(c.history) && c.Snapshot() == Hide(old(c.Snapshot()))
  {
    if !c.ttyEnabled {
      return;
    }
    if c.inputHide != 0 {
      c.inputHide := c.inputHide + 1;
      return;
    }
    ghost var out0 := c.out;
    var len := |c.field.buffer| - c.field.cursor;
    var n := 0;
    while len > 0
      invariant c.out == out0 + Repeat(CursorRight, n) && len == |c.field.buffer| - c.field.cursor - n && n >= 0
      invariant len >= 0 || n == 0
      invariant c.history == old(c.history) && c.Snapshot() == old(c.Snapshot()).(out := c.out)
    {
      RepeatSnoc(CursorRight, n);
      c.out := c.out + [CursorRight];
      len := len - 1;
      n := n + 1;
    }
    assert Repeat(CursorRight, n) == Repeat(CursorRight, |c.field.buffer| - c.field.cursor);
    ghost var out1 := c.out;
    var bufLen := |c.field.buffer|;
    n := 0;
    while bufLen > 0
      invariant c.out == out1 + Repeat(EraseLeft, n) && bufLen == |c.field.buffer| - n && n >= 0 && bufLen >= 0
      invariant c.history == old(c.history) && c.Snapshot() == old(c.Snapshot()).(out := c.out)
    {
      RepeatSnoc(EraseLeft, n);
      c.out := c.out + [EraseLeft];
      bufLen := bufLen - 1;
      n := n + 1;
    }
    assert Repeat(EraseLeft, n) == Repeat(EraseLeft, |c.field.buffer|);
    c.inputHide := c.inputHide + 1;
  }

  /** tty_Show; the source asserts input_hide > 0. */
  method TtyShow(c: Console)
    requires c.Valid() && (c.ttyEnabled ==> c.inputHide > 0)
    modifies c
    ensures c.history == old(c.history) && c.Snapshot() == Show(old(c.Snapshot()))
  {
    if !c.ttyEnabled {
      return;
    }
    c.inputHide := c.inputHide - 1;
    if c.inputHide == 0 {
      var buf := c.field.buffer;
      if |buf| > 0 {
        c.out := c.out + [Text(buf)];
        ghost var out0 := c.out;
        var back := |buf| - c.field.cursor;
        var n := 0;
        while back > 0
          invariant c.out == out0 + Repeat(CursorLeft, n) && back == |buf| - c.field.cursor - n && n >= 0
          invariant back >= 0 || n == 0
          invariant c.history == old(c.history) && c.Snapshot() == old(c.Snapshot()).(out := c.out, inputHide := 0)
        {
          RepeatSnoc(CursorLeft, n);
          c.out := c.out + [CursorLeft];
          back := back - 1;
          n := n + 1;
        }
        assert Repeat(CursorLeft, n) == Repeat(CursorLeft, |buf| - c.field.cursor);
      }
    }
  }

  /** tty_FlushIn: reads stdin until a read fails, reporting each byte. */
  method FlushIn(c: Console)
    requires c.Valid()
    modifies c
    ensures c.Valid() && c.history == old(c.history) && c.Snapshot() == Flush(old(c.Snapshot()))
  {
    ghost var in0 := c.stdin;
    ghost var out0 := c.out;
    while |c.stdin| > 0
      invariant c.Valid() && c.history == old(c.history) && |c.stdin| <= |in0|
      invariant c.stdin == in0[|in0| - |c.stdin|..]
      invariant c.out == out0 + FlushReports(in0[..|in0| - |c.stdin|])
      invariant c.Snapshot() == old(c.Snapshot()).(stdin := c.stdin, out := c.out)
      decreases |c.stdin|
    {
      var key := Signed(c.stdin[0]);
      ghost var k := |in0| - |c.stdin|;
      assert in0[..k + 1] == in0[..k] + [c.stdin[0]];
      c.stdin := c.stdin[1..];
      c.out := c.out + [Flushed(key)];
    }
    assert in0[..|in0|] == in0;
    c.out := c.out + [FlushEnd];
  }

  /** One read( STDIN_FILENO, &key, 1 ): on failure key keeps the value it had. */
  method ReadByte(c: Console, prev: int) returns (ok: bool, key: int)
    modifies c
    ensures ok == (|old(c.stdin)| > 0)
    ensures key == (if ok then Signed(old(c.stdin)[0]) else prev)
    ensures c.stdin == (if ok then old(c.stdin)[1..] else old(c.stdin))
    ensures c.history == old(c.history) && c.Snapshot() == old(c.Snapshot()).(stdin := c.stdin)
  {
    if |c.stdin| == 0 {
      return false, prev;
    }
    key := Signed(c.stdin[0]);
    c.stdin := c.stdin[1..];
    ok := true;
  }

  /** The reads and the switch of the loop body, up to what the key asks for. */
  method ReadKey(c: Console) returns (key: Key)
    requires |c.stdin| > 0
    modifies c
    ensures (key, c.stdin) == Decode(old(c.stdin))
    ensures c.history == old(c.history) && c.Snapshot() == old(c.Snapshot()).(stdin := c.stdin)
  {
    var ok, k := ReadByte(c, 0);
    if k == 1 { return Home; }
    if k == 5 { return End; }
    if k == 127 || k == 8 { return Edit(Backspace); }
    if k == 10 { return Enter; }
    if k == 9 { return Edit(AutoComplete); }
    if k != 27 {
      if k >= 32 { return Edit(CharEvent(k)); }
      return Drop([k]);
    }
    ok, k := ReadByte(c, k);
    if !ok { return Drop([27]); }
    if k == 79 {
      ok, k := ReadByte(c, k);
      if !ok { return Drop([27, 79]); }
      if k == 72 { return Home; }
      if k == 70 { return End; }
      return Drop([27, 79, k]);
    }
    if k != 91 {
      return Drop([27, k]);
    }
    ok, k := ReadByte(c, k);
    if !ok { return Drop([27, 91]); }
    if k == 49 || k == 50 || k == 52 {
      var first := k;
      ok, k := ReadByte(c, k);
      if !ok || k != 126 { return Drop([27, 91, first, k]); }
      return if first == 49 then Home else if first == 50 then Edit(KeyDownEvent(Ins)) else End;
    }
    if k == 51 {
      ok, k := ReadByte(c, k);
      if !ok { return Drop([27, 91, 51]); }
      if k == 126 { return Edit(KeyDownEvent(Del)); }
      return Drop([27, 91, 51, k]);
    }
    if k == 65 { return Up; }
    if k == 66 { return Down; }
    if k == 67 { return Edit(KeyDownEvent(RightArrow)); }
    if k == 68 { return Edit(KeyDownEvent(LeftArrow)); }
    return Drop([27, 91, k]);
  }

  /** The history part of the '\n' case. */
  method CommitHistory(c: Console, line: string)
    requires c.Valid()
    modifies c, c.history
    ensures c.Valid() && c.history == old(c.history) && c.Snapshot() == Commit(old(c.Snapshot()), line)
  {
    ghost var s := c.Snapshot();
    if c.historyCount < COMMAND_HISTORY {
      c.history[c.historyCount] := line;
      c.historyCount := c.historyCount + 1;
    } else {
      c.history[c.historyStart] := line;
      c.historyStart := c.historyStart + 1;
      c.historyStart := c.historyStart % COMMAND_HISTORY;
    }
    c.historyCurrent := 0;
    CommitRecent(s, line);
  }

  /** The up (65) and down (66) arrow case. */
  method NavigateHistory(c: Console, up: bool)
    requires c.Valid()
    modifies c
    ensures c.Valid() && c.history == old(c.history) && c.Snapshot() == Navigate(old(c.Snapshot()), up)
  {
    ghost var s := c.Snapshot();
    ghost var r := Navigate(s, up);
    if c.historyCurrent == 0 {
      c.backup := c.field;
    }
    assert c.backup == r.backup;
    if up {
      c.historyCurrent := c.historyCurrent + 1;
    } else {
      c.historyCurrent := c.historyCurrent - 1;
    }
    var used := Min(COMMAND_HISTORY, c.historyCount);
    if c.historyCurrent < 0 {
      c.historyCurrent := used;
    } else {
      c.historyCurrent := c.historyCurrent % (used + 1);
    }
    assert c.historyCurrent == r.historyCurrent;
    if c.historyCurrent == 0 {
      c.field := c.backup;
    } else {
      var index := c.historyStart + used - c.historyCurrent;
      index := index % COMMAND_HISTORY;
      c.field := SetBuffer(c.history[index]);
    }
    assert c.field == r.field;
    NavigateOk(s, up);
  }

  /** The start of one turn of the read loop: hide the line once, then read one key. */
  method NextKey(c: Console, hidden: bool) returns (key: Key)
    requires c.Valid() && c.ttyEnabled && |c.stdin| > 0 && (hidden ==> c.inputHide > 0)
    modifies c
    ensures c.Valid() && c.history == old(c.history) && c.inputHide > 0
    ensures var d := Decode(old(c.stdin));
      key == d.0 && c.Snapshot() == (if hidden then old(c.Snapshot()) else Hide(old(c.Snapshot()))).(stdin := d.1)
  {
    if !hidden {
      TtyHide(c);
    }
    key := ReadKey(c);
  }

  /** The '\n' case: copy the line out, show, echo the newline, clear the field and commit. */
  method EnterLine(c: Console, ghost apply: (EditField, EditOp) -> EditField) returns (line: Option<string>)
    requires c.Valid() && c.ttyEnabled && c.inputHide > 0
    modifies c, c.history
    ensures c.Valid() && c.history == old(c.history)
    ensures (c.Snapshot(), line) == OnKey(old(c.Snapshot()), Enter, apply)
  {
    var text := Truncate(c.field.buffer);
    c.inputRet := text;
    TtyShow(c);
    c.out := c.out + [Text("\n")];
    c.field := ClearField();
    CommitHistory(c, text);
    return Some(text);
  }

  /** The history arrows: navigate, then show. */
  method HistoryKey(c: Console, up: bool, ghost apply: (EditField, EditOp) -> EditField)
    requires c.Valid() && c.ttyEnabled && c.inputHide > 0
    modifies c
    ensures c.Valid() && c.history == old(c.history)
    ensures (c.Snapshot(), None) == OnKey(old(c.Snapshot()), if up then Up else Down, apply)
  {
    NavigateHistory(c, up);
    TtyShow(c);
  }

  /** A dropped sequence: report it, flush stdin, show. */
  method DropKey(c: Console, report: seq<int>, ghost apply: (EditField, EditOp) -> EditField)
    requires c.Valid() && c.ttyEnabled && c.inputHide > 0
    modifies c
    ensures c.Valid() && c.history == old(c.history)
    ensures (c.Snapshot(), None) == OnKey(old(c.Snapshot()), Drop(report), apply)
  {
    c.out := c.out + [Report(report)];
    FlushIn(c);
    TtyShow(c);
  }

  /** The cases of the switch that go on reading: cursor moves and edits. */
  method EditKey(c: Console, key: Key, apply: (EditField, EditOp) -> EditField)
    requires c.Valid() && c.ttyEnabled && c.inputHide > 0
    requires key.Home? || key.End? || key.Edit?
    modifies c
    ensures c.Valid() && c.history == old(c.history) && c.ttyEnabled && c.inputHide > 0 && c.stdin == old(c.stdin)
    ensures InputLoop(c.Snapshot(), true, apply) == OnKey(old(c.Snapshot()), key, apply)
  {
    if key.Home? {
      c.field := c.field.(cursor := 0);
    } else if key.End? {
      c.field := c.field.(cursor := |c.field.buffer|);
    } else {
      c.field := apply(c.field, key.op);
    }
  }

  /** The cases of the switch that end the call: '\n', the history arrows and every dropped sequence. */
  method FinishKey(c: Console, key: Key, apply: (EditField, EditOp) -> EditField) returns (line: Option<string>)
    requires c.Valid() && c.ttyEnabled && c.inputHide > 0
    requires key.Enter? || key.Up? || key.Down? || key.Drop?
    modifies c, c.history
    ensures c.Valid() && c.history == old(c.history)
    ensures (c.Snapshot(), line) == OnKey(old(c.Snapshot()), key, apply)
  {
    if key.Enter? {
      line := EnterLine(c, apply);
    } else if key.Up? || key.Down? {
      HistoryKey(c, key.Up?, apply);
      line := None;
    } else {
      DropKey(c, key.report, apply);
      line := None;
    }
  }

  /** Posix_ConsoleInput on a terminal: read keys until a line is complete, a sequence is dropped, or stdin runs dry. */
  method ConsoleInput(c: Console, apply: (EditField, EditOp) -> EditField) returns (line: Option<string>)
    requires c.Valid()
    modifies c, c.history
    ensures c.Valid() && c.history == old(c.history)
    ensures (c.Snapshot(), line) == Input(old(c.Snapshot()), apply)
  {
    if !c.ttyEnabled {
      return None;
    }
    ghost var goal := InputLoop(c.Snapshot(), false, apply);
    var hidden := false;
    while |c.stdin| > 0
      invariant c.Valid() && c.history == old(c.history) && c.ttyEnabled && (hidden ==> c.inputHide > 0)
      invariant InputLoop(c.Snapshot(), hidden, apply) == goal
      decreases |c.stdin|
    {
      var key := NextKey(c, hidden);
      hidden := true;
      if key.Home? || key.End? || key.Edit? {
        EditKey(c, key, apply);
      } else {
        line := FinishKey(c, key, apply);
        return;
      }
    }
    if hidden {
      TtyShow(c);
    }
    return None;
  }

  /** Posix_ConsoleExit: every history slot is cleared; the counters are left as they were. */
  method ConsoleExit(c: Console)
    requires c.Valid()
    modifies c.history
    ensures c.Valid() && c.Snapshot() == old(c.Snapshot()).(history := seq(COMMAND_HISTORY, _ => ""))
  {
    var i := 0;
    while i < COMMAND_HISTORY
      invariant 0 <= i <= COMMAND_HISTORY && c.history.Length == COMMAND_HISTORY
      invariant forall j :: 0 <= j < i ==> c.history[j] == ""
      invariant ConOk(c.Snapshot())
    {
      c.history[i] := "";
      i := i + 1;
    }
  }
}
