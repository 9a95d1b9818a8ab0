// The SDL input layer (neo/sys/common/events.cpp): the SDL3 keycode to
// engine key map, the append-only system event queue read through a head
// cursor, the keyboard and mouse poll lists, and the branches of the SDL
// event filter that feed them.
//
// SDL keycodes are the integer values of SDL3's SDL_keycode.h (printable
// keys are their ASCII code, the others their scancode with bit 30 set).
// The engine's keyNum_t, mouse actions and sysEventType_t are declared in
// headers that are not part of this model; they are kept symbolic here.
module InputEvents {
  import opened Wrappers
  import opened CChar

  // ---------------------------------------------------------------------
  // SDL3 keycodes used by the map

  const SDLK_SCANCODE_MASK: int := 0x4000_0000
  const SDLK_BACKSPACE: int := 0x08
  const SDLK_TAB: int := 0x09
  const SDLK_RETURN: int := 0x0d
  const SDLK_ESCAPE: int := 0x1b
  const SDLK_SPACE: int := 0x20
  const SDLK_APOSTROPHE: int := 0x27
  const SDLK_COMMA: int := 0x2c
  const SDLK_MINUS: int := 0x2d
  const SDLK_PERIOD: int := 0x2e
  const SDLK_SLASH: int := 0x2f
  const SDLK_0: int := 0x30
  const SDLK_COLON: int := 0x3a
  const SDLK_SEMICOLON: int := 0x3b
  const SDLK_EQUALS: int := 0x3d
  const SDLK_AT: int := 0x40
  const SDLK_LEFTBRACKET: int := 0x5b
  const SDLK_BACKSLASH: int := 0x5c
  const SDLK_RIGHTBRACKET: int := 0x5d
  const SDLK_UNDERSCORE: int := 0x5f
  const SDLK_A: int := 0x61
  const SDLK_G: int := 0x67
  const SDLK_DELETE: int := 0x7f
  const SDLK_CAPSLOCK: int := 0x4000_0039
  const SDLK_F1: int := 0x4000_003a
  const SDLK_PRINTSCREEN: int := 0x4000_0046
  const SDLK_SCROLLLOCK: int := 0x4000_0047
  const SDLK_PAUSE: int := 0x4000_0048
  const SDLK_INSERT: int := 0x4000_0049
  const SDLK_HOME: int := 0x4000_004a
  const SDLK_PAGEUP: int := 0x4000_004b
  const SDLK_END: int := 0x4000_004d
  const SDLK_PAGEDOWN: int := 0x4000_004e
  const SDLK_RIGHT: int := 0x4000_004f
  const SDLK_LEFT: int := 0x4000_0050
  const SDLK_DOWN: int := 0x4000_0051
  const SDLK_UP: int := 0x4000_0052
  const SDLK_NUMLOCKCLEAR: int := 0x4000_0053
  const SDLK_KP_DIVIDE: int := 0x4000_0054
  const SDLK_KP_MULTIPLY: int := 0x4000_0055
  const SDLK_KP_MINUS: int := 0x4000_0056
  const SDLK_KP_PLUS: int := 0x4000_0057
  const SDLK_KP_ENTER: int := 0x4000_0058
  const SDLK_KP_1: int := 0x4000_0059
  const SDLK_KP_0: int := 0x4000_0062
  const SDLK_KP_PERIOD: int := 0x4000_0063
  const SDLK_POWER: int := 0x4000_0066
  const SDLK_KP_EQUALS: int := 0x4000_0067
  const SDLK_F13: int := 0x4000_0068
  const SDLK_LCTRL: int := 0x4000_00e0
  const SDLK_LSHIFT: int := 0x4000_00e1
  const SDLK_LALT: int := 0x4000_00e2
  const SDLK_LGUI: int := 0x4000_00e3
  const SDLK_RCTRL: int := 0x4000_00e4
  const SDLK_RSHIFT: int := 0x4000_00e5
  const SDLK_RALT: int := 0x4000_00e6
  const SDLK_RGUI: int := 0x4000_00e7
  const SDLK_MODE: int := 0x4000_0101

  const SDL_SCANCODE_GRAVE: int := 53
  const SDL_BUTTON_LEFT: int := 1
  const SDL_BUTTON_MIDDLE: int := 2
  const SDL_BUTTON_RIGHT: int := 3

  // ---------------------------------------------------------------------
  // SDL_KeyToDoom3Key

  /** keyNum_t: NoKey is K_NONE (0); Digit, Letter, F and KpDigit stand for K_0..K_9, K_A..K_Z, K_F1..K_F15, K_KP_0..K_KP_9. */
  datatype KeyNum =
    | NoKey | Escape | Space | Slash | Apostrophe | Digit(d: int) | Underline | Minus | Comma | Colon
    | Semicolon | Period | At | Equals | RBracket | LBracket | Backslash | Letter(i: int) | Enter
    | Backspace | Pause | Tab | CapsLock | Scroll | Power | UpArrow | DownArrow | LeftArrow | RightArrow
    | LWin | RWin | LAlt | RAlt | RCtrl | LCtrl | RShift | LShift | Ins | Del | PgDn | PgUp | Home | End
    | F(n: int) | KpDigit(d: int) | KpEnter | KpDot | KpSlash | KpMinus | KpPlus | NumLock | KpStar
    | KpEquals | PrintScreen | Grave | MWheelUp | MWheelDown | Mouse1 | Mouse2 | Mouse3

  /** The keys whose SDL keycode is an ASCII code. */
  function AsciiKey(key: int): KeyNum {
    if key == SDLK_ESCAPE then Escape
    else if key == SDLK_SPACE then Space
    else if key == SDLK_SLASH then Slash
    else if key == SDLK_APOSTROPHE then Apostrophe
    else if SDLK_0 <= key < SDLK_0 + 10 then Digit(key - SDLK_0)
    else if key == SDLK_UNDERSCORE then Underline
    else if key == SDLK_MINUS then Minus
    else if key == SDLK_COMMA then Comma
    else if key == SDLK_COLON then Colon
    else if key == SDLK_SEMICOLON then Semicolon
    else if key == SDLK_PERIOD then Period
    else if key == SDLK_AT then At
    else if key == SDLK_EQUALS then Equals
    else if key == SDLK_RIGHTBRACKET then RBracket
    else if key == SDLK_LEFTBRACKET then LBracket
    else if key == SDLK_BACKSLASH then Backslash
    else if SDLK_A <= key < SDLK_A + 26 then Letter(key - SDLK_A)
    else if key == SDLK_RETURN then Enter
    else if key == SDLK_BACKSPACE then Backspace
    else if key == SDLK_TAB then Tab
    else if key == SDLK_DELETE then Del
    else NoKey
  }

  /** The keys whose SDL keycode is a scancode with SDLK_SCANCODE_MASK set, by scancode range. */
  function ScancodeKey(key: int): KeyNum {
    if key < SDLK_NUMLOCKCLEAR then EditingKey(key)
    else if key < SDLK_LCTRL then KeypadKey(key)
    else ModifierKey(key)
  }

  /** Scancodes below the keypad: locks, function keys 1-12, the editing block and the arrows. */
  function EditingKey(key: int): KeyNum {
    if key == SDLK_PAUSE then Pause
    else if key == SDLK_CAPSLOCK then CapsLock
    else if key == SDLK_SCROLLLOCK then Scroll
    else if key == SDLK_UP then UpArrow
    else if key == SDLK_DOWN then DownArrow
    else if key == SDLK_LEFT then LeftArrow
    else if key == SDLK_RIGHT then RightArrow
    else if key == SDLK_INSERT then Ins
    else if key == SDLK_PAGEDOWN then PgDn
    else if key == SDLK_PAGEUP then PgUp
    else if key == SDLK_HOME then Home
    else if key == SDLK_END then End
    else if SDLK_F1 <= key < SDLK_F1 + 12 then F(key - SDLK_F1 + 1)
    else if key == SDLK_PRINTSCREEN then PrintScreen
    else NoKey
  }

  /** The keypad, power and function keys 13-15. */
  function KeypadKey(key: int): KeyNum {
    if key == SDLK_POWER then Power
    else if SDLK_F13 <= key < SDLK_F13 + 3 then F(key - SDLK_F13 + 13)
    else if SDLK_KP_1 <= key < SDLK_KP_1 + 9 then KpDigit(key - SDLK_KP_1 + 1)
    else if key == SDLK_KP_ENTER then KpEnter
    else if key == SDLK_KP_0 then KpDigit(0)
    else if key == SDLK_KP_PERIOD then KpDot
    else if key == SDLK_KP_DIVIDE then KpSlash
    else if key == SDLK_KP_MINUS then KpMinus
    else if key == SDLK_KP_PLUS then KpPlus
    else if key == SDLK_NUMLOCKCLEAR then NumLock
    else if key == SDLK_KP_MULTIPLY then KpStar
    else if key == SDLK_KP_EQUALS then KpEquals
    else NoKey
  }

  /** The modifier keys and SDLK_MODE (AltGr on some layouts), which also gives K_RALT. */
  function ModifierKey(key: int): KeyNum {
    if key == SDLK_LGUI then LWin
    else if key == SDLK_RGUI then RWin
    else if key == SDLK_LALT then LAlt
    else if key == SDLK_RALT then RAlt
    else if key == SDLK_RCTRL then RCtrl
    else if key == SDLK_LCTRL then LCtrl
    else if key == SDLK_RSHIFT then RShift
    else if key == SDLK_LSHIFT then LShift
    else if key == SDLK_MODE then RAlt
    else NoKey
  }

  /** SDL_KeyToDoom3Key: the engine key (NoKey when unmapped) and isChar. */
  function KeyToDoom3(key: int): (r: (KeyNum, bool))
    ensures r.1 <==> SDLK_SPACE <= key < SDLK_DELETE
    ensures !(0 <= key < 0x80 || SDLK_SCANCODE_MASK <= key < 2 * SDLK_SCANCODE_MASK) ==> r.0 == NoKey
  {
    var isChar := SDLK_SPACE <= key < SDLK_DELETE;
    if 0 <= key < 0x80 then (AsciiKey(key), isChar)
    else if SDLK_SCANCODE_MASK <= key < 2 * SDLK_SCANCODE_MASK then (ScancodeKey(key), isChar)
    else (NoKey, isChar)
  }

  /** The SDL key each engine key is produced from, written as its own table: the inverse of the map. */
  function SdlKeyOf(k: KeyNum): Option<int> {
    match k
    case Escape => Some(0x1b)
    case Space => Some(0x20)
    case Slash => Some(0x2f)
    case Apostrophe => Some(0x27)
    case Digit(d) => if 0 <= d <= 9 then Some(0x30 + d) else None
    case Underline => Some(0x5f)
    case Minus => Some(0x2d)
    case Comma => Some(0x2c)
    case Colon => Some(0x3a)
    case Semicolon => Some(0x3b)
    case Period => Some(0x2e)
    case At => Some(0x40)
    case Equals => Some(0x3d)
    case RBracket => Some(0x5d)
    case LBracket => Some(0x5b)
    case Backslash => Some(0x5c)
    case Letter(i) => if 0 <= i < 26 then Some(0x61 + i) else None
    case Enter => Some(0x0d)
    case Backspace => Some(0x08)
    case Tab => Some(0x09)
    case Del => Some(0x7f)
    case Pause => Some(SDLK_SCANCODE_MASK + 72)
    case CapsLock => Some(SDLK_SCANCODE_MASK + 57)
    case Scroll => Some(SDLK_SCANCODE_MASK + 71)
    case Power => Some(SDLK_SCANCODE_MASK + 102)
    case UpArrow => Some(SDLK_SCANCODE_MASK + 82)
    case DownArrow => Some(SDLK_SCANCODE_MASK + 81)
    case LeftArrow => Some(SDLK_SCANCODE_MASK + 80)
    case RightArrow => Some(SDLK_SCANCODE_MASK + 79)
    case LWin => Some(SDLK_SCANCODE_MASK + 227)
    case RWin => Some(SDLK_SCANCODE_MASK + 231)
    case LAlt => Some(SDLK_SCANCODE_MASK + 226)
    case RAlt => Some(SDLK_SCANCODE_MASK + 230)
    case RCtrl => Some(SDLK_SCANCODE_MASK + 228)
    case LCtrl => Some(SDLK_SCANCODE_MASK + 224)
    case RShift => Some(SDLK_SCANCODE_MASK + 229)
    case LShift => Some(SDLK_SCANCODE_MASK + 225)
    case Ins => Some(SDLK_SCANCODE_MASK + 73)
    case PgDn => Some(SDLK_SCANCODE_MASK + 78)
    case PgUp => Some(SDLK_SCANCODE_MASK + 75)
    case Home => Some(SDLK_SCANCODE_MASK + 74)
    case End => Some(SDLK_SCANCODE_MASK + 77)
    case F(n) =>
      if 1 <= n <= 12 then Some(SDLK_SCANCODE_MASK + 57 + n)
      else if 13 <= n <= 15 then Some(SDLK_SCANCODE_MASK + 91 + n)
      else None
    case KpDigit(d) =>
      if d == 0 then Some(SDLK_SCANCODE_MASK + 98)
      else if 1 <= d <= 9 then Some(SDLK_SCANCODE_MASK + 88 + d)
      else None
    case KpEnter => Some(SDLK_SCANCODE_MASK + 88)
    case KpDot => Some(SDLK_SCANCODE_MASK + 99)
    case KpSlash => Some(SDLK_SCANCODE_MASK + 84)
    case KpMinus => Some(SDLK_SCANCODE_MASK + 86)
    case KpPlus => Some(SDLK_SCANCODE_MASK + 87)
    case NumLock => Some(SDLK_SCANCODE_MASK + 83)
    case KpStar => Some(SDLK_SCANCODE_MASK + 85)
    case KpEquals => Some(SDLK_SCANCODE_MASK + 103)
    case PrintScreen => Some(SDLK_SCANCODE_MASK + 70)
    case _ => None
  }

  /** Every engine key in the inverse table comes back from its SDL key. */
  lemma KeyMapFromTable(k: KeyNum)
    requires SdlKeyOf(k).Some?
    ensures KeyToDoom3(SdlKeyOf(k).value).0 == k
  {
    if AsciiGroup(k) {
      AsciiFromTable(k);
    } else if EditingGroup(k) {
      EditingFromTable(k);
    } else if KeypadGroup(k) {
      KeypadFromTable(k);
    } else {
      ModifierFromTable(k);
    }
  }

  predicate AsciiGroup(k: KeyNum) {
    k.Escape? || k.Space? || k.Slash? || k.Apostrophe? || k.Digit? || k.Underline? || k.Minus?
    || k.Comma? || k.Colon? || k.Semicolon? || k.Period? || k.At? || k.Equals? || k.RBracket? || k.LBracket?
    || k.Backslash? || k.Letter? || k.Enter? || k.Backspace? || k.Tab? || k.Del?
  }

  predicate EditingGroup(k: KeyNum) {
    k.Pause? || k.CapsLock? || k.Scroll? || k.UpArrow? || k.DownArrow? || k.LeftArrow?
    || k.RightArrow? || k.Ins? || k.PgDn? || k.PgUp? || k.Home? || k.End? || k.PrintScreen? || (k.F? && k.n <= 12)
  }

  predicate KeypadGroup(k: KeyNum) {
    k.Power? || k.KpDigit? || k.KpEnter? || k.KpDot? || k.KpSlash? || k.KpMinus? || k.KpPlus?
    || k.NumLock? || k.KpStar? || k.KpEquals? || (k.F? && k.n > 12)
  }

  lemma AsciiFromTable(k: KeyNum)
    requires AsciiGroup(k)
    requires SdlKeyOf(k).Some?
    ensures 0 <= SdlKeyOf(k).value < 0x80 && AsciiKey(SdlKeyOf(k).value) == k
  {
  }

  lemma EditingFromTable(k: KeyNum)
    requires EditingGroup(k)
    requires SdlKeyOf(k).Some?
    ensures SDLK_SCANCODE_MASK <= SdlKeyOf(k).value < SDLK_NUMLOCKCLEAR && EditingKey(SdlKeyOf(k).value) == k
  {
  }

  lemma KeypadFromTable(k: KeyNum)
    requires KeypadGroup(k)
    requires SdlKeyOf(k).Some?
    ensures SDLK_NUMLOCKCLEAR <= SdlKeyOf(k).value < SDLK_LCTRL && KeypadKey(SdlKeyOf(k).value) == k
  {
  }

  lemma ModifierFromTable(k: KeyNum)
    requires SdlKeyOf(k).Some? && !AsciiGroup(k) && !EditingGroup(k) && !KeypadGroup(k)
    ensures SDLK_LCTRL <= SdlKeyOf(k).value < 2 * SDLK_SCANCODE_MASK
    ensures ModifierKey(SdlKeyOf(k).value) == k
  {
  }

  /**
   * And every mapped SDL key is the one the table gives for its engine key,
   * except SDLK_MODE, which shares K_RALT with SDLK_RALT: no other two SDL
   * keys collide.
   */
  lemma KeyMapToTable(key: int)
    ensures var k := KeyToDoom3(key).0;
      k != NoKey ==> SdlKeyOf(k) == Some(key) || (key == SDLK_MODE && k == RAlt)
  {
    if 0 <= key < 0x80 {
      AsciiToTable(key);
    } else if SDLK_SCANCODE_MASK <= key < 2 * SDLK_SCANCODE_MASK {
      ScancodeToTable(key);
    }
  }

  lemma AsciiToTable(key: int)
    requires 0 <= key < 0x80
    ensures var k := AsciiKey(key); k != NoKey ==> SdlKeyOf(k) == Some(key)
  {
  }

  lemma ScancodeToTable(key: int)
    requires SDLK_SCANCODE_MASK <= key < 2 * SDLK_SCANCODE_MASK
    ensures var k := ScancodeKey(key); k != NoKey ==> SdlKeyOf(k) == Some(key) || (key == SDLK_MODE && k == RAlt)
  {
    if key < SDLK_NUMLOCKCLEAR {
      EditingToTable(key);
    } else if key < SDLK_LCTRL {
      KeypadToTable(key);
    }
  }

  lemma EditingToTable(key: int)
    ensures var k := EditingKey(key); k != NoKey ==> SdlKeyOf(k) == Some(key)
  {
  }

  lemma KeypadToTable(key: int)
    ensures var k := KeypadKey(key); k != NoKey ==> SdlKeyOf(k) == Some(key)
  {
  }

  /** Sys_MapCharForKey: key & 0xff, which on a two's-complement int is the Euclidean remainder mod 256. */
  function MapCharForKey(key: int): (c: int)
    ensures 0 <= c < 256 && (key - c) % 256 == 0
  {
    key % 256
  }

  /** The low byte of every keycode that is an ASCII character is the character itself. */
  lemma MapCharKeepsAscii(key: int)
    requires 0 <= key < 256
    ensures MapCharForKey(key) == key
  {
  }

  // ---------------------------------------------------------------------
  // Events and polls

  /** sysEventType_t. */
  datatype EventType = SeNone | SeKey | SeChar | SeMouse | SeMouseAbsolute | SeJoystick | SeConsole

  /** evValue is an int in the engine; key events carry a keyNum_t, kept symbolic. */
  datatype EvValue = Num(n: int) | KeyCode(key: KeyNum)

  /** sysEvent_t; evPtr is an opaque handle, 0 for nullptr. */
  datatype SysEvent = SysEvent(evType: EventType, evValue: EvValue, evValue2: int, evPtrLength: int, evPtr: int, inputDevice: int)

  /** The res_none of Sys_GetEvent. */
  const NO_EVENT: SysEvent := SysEvent(SeNone, Num(0), 0, 0, 0, 0)

  datatype KbdPoll = KbdPoll(key: KeyNum, state: bool)

  /** The mouse actions of mouse_poll_t. */
  datatype MouseAction = Action1 | Action2 | Action3 | DeltaX | DeltaY | DeltaZ
  datatype MousePoll = MousePoll(action: MouseAction, value: int)

  /** The file statics kbd_polls, mouse_polls, event_queue and eventHead, plus what the filter hands back to SDL. */
  datatype Events = Events(kbdPolls: seq<KbdPoll>, mousePolls: seq<MousePoll>, queue: seq<SysEvent>, head: int,
                           pushed: seq<string>, noGrab: bool)

  predicate EventsOk(s: Events) {
    0 <= s.head <= |s.queue|
  }

  /** The events queued and not yet handed out, in order. */
  function Pending(s: Events): (p: seq<SysEvent>)
    requires EventsOk(s)
    ensures |p| == |s.queue| - s.head
  {
    s.queue[s.head..]
  }

  /** Sys_QueEvent. */
  function Que(s: Events, e: SysEvent): (r: Events)
    requires EventsOk(s)
    ensures EventsOk(r) && Pending(r) == Pending(s) + [e]
  {
    s.(queue := s.queue + [e])
  }

  /** Sys_GetEvent. */
  function Get(s: Events): (r: (SysEvent, Events))
    requires EventsOk(s)
    ensures EventsOk(r.1)
  {
    if |s.queue| != 0 && s.head < |s.queue| then (s.queue[s.head], s.(head := s.head + 1))
    else (NO_EVENT, s)
  }

  /** Sys_GetEvent hands out the oldest pending event and removes it; with none pending it returns SE_NONE and changes nothing. */
  lemma GetIsFifo(s: Events)
    requires EventsOk(s)
    ensures var r := Get(s);
      if |Pending(s)| > 0 then r.0 == Pending(s)[0] && Pending(r.1) == Pending(s)[1..] && r.1.queue == s.queue
      else r == (NO_EVENT, s)
  {
  }

  /** Calling Sys_GetEvent until it returns SE_NONE. */
  function Drain(s: Events): seq<SysEvent>
    requires EventsOk(s)
    decreases |s.queue| - s.head
  {
    if s.head < |s.queue| then [Get(s).0] + Drain(Get(s).1) else []
  }

  function QueAll(s: Events, es: seq<SysEvent>): (r: Events)
    requires EventsOk(s)
    ensures EventsOk(r)
    decreases |es|
  {
    if |es| == 0 then s else QueAll(Que(s, es[0]), es[1..])
  }

  /** Reading everything out returns exactly the pending events, oldest first. */
  lemma {:induction false} DrainIsPending(s: Events)
    requires EventsOk(s)
    ensures Drain(s) == Pending(s)
    decreases |s.queue| - s.head
  {
    if s.head < |s.queue| {
      GetIsFifo(s);
      DrainIsPending(Get(s).1);
    }
  }

  /** Queueing es then draining gives what was pending followed by es: a first-in first-out queue. */
  lemma {:induction false} QueThenDrain(s: Events, es: seq<SysEvent>)
    requires EventsOk(s)
    ensures Drain(QueAll(s, es)) == Pending(s) + es
    decreases |es|
  {
    if |es| == 0 {
      DrainIsPending(s);
    } else {
      QueThenDrain(Que(s, es[0]), es[1..]);
      assert Pending(s) + es == (Pending(s) + [es[0]]) + es[1..];
    }
  }

  /** Sys_ClearEvents (SDL_PollEvent draining left out). */
  function Clear(s: Events): (r: Events)
    ensures EventsOk(r) && Pending(r) == [] && r.kbdPolls == [] && r.mousePolls == []
  {
    s.(kbdPolls := [], mousePolls := [], queue := [], head := 0)
  }

  /** Sys_ReturnKeyboardInputEvent: 0 past the end, else 1 and entry n. */
  function ReturnKeyboardInputEvent(s: Events, n: int): (r: (int, Option<KbdPoll>))
    ensures r.0 == (if 0 <= n < |s.kbdPolls| then 1 else 0) && (r.0 == 1 <==> r.1.Some?)
    ensures r.1.Some? ==> r.1.value == s.kbdPolls[n]
  {
    if n >= |s.kbdPolls| || n < 0 then (0, None) else (1, Some(s.kbdPolls[n]))
  }

  // ---------------------------------------------------------------------
  // sys_HandleSDL_Events

  /**
   * The SDL events the filter tells apart. Coordinates are the values after
   * their conversion to int; Other stands for the window, focus and gamepad
   * events, whose effects are cvar writes.
   */
  datatype SdlEvent =
    | KeyEvent(down: bool, key: int, scancode: int, alt: bool, ctrl: bool)
    | TextInput(text: seq<Byte>)
    | MouseMotion(x: int, y: int, xrel: int, yrel: int)
    | MouseWheel(wheelY: real)
    | MouseButton(down: bool, button: int)
    | UserEvent(code: EventType, length: int, data: int)
    | Quit
    | Other

  function Flag(b: bool): int { if b then 1 else 0 }

  function KeyEv(k: KeyNum, value2: int): SysEvent { SysEvent(SeKey, KeyCode(k), value2, 0, 0, 0) }
  function CharEv(c: int): SysEvent { SysEvent(SeChar, Num(c), 0, 0, 0, 0) }

  /** The engine key a key event stands for, if any: the console key by scancode, then the map, then the layout's console keys. */
  function EventKey(key: int, scancode: int, consoleKeys: (int, int)): (k: Option<KeyNum>)
    ensures k.Some? ==> k.value != NoKey
  {
    if scancode == SDL_SCANCODE_GRAVE then Some(Grave)
    else
      var mapped := KeyToDoom3(key).0;
      if mapped != NoKey then Some(mapped)
      else
        var uc := scancode % 256;
        if uc == consoleKeys.0 || uc == consoleKeys.1 then Some(Grave) else None
  }

  /**
   * The filter: the new state and whether SDL keeps the event. consoleKeys
   * are Sys_GetConsoleKey( false ) and ( true ); shellActive is
   * game->Shell_IsActive().
   */
  function Handle(s: Events, ev: SdlEvent, consoleKeys: (int, int), shellActive: bool): (Events, bool)
    requires EventsOk(s) && (ev.TextInput? ==> NoNul(ev.text))
  {
    match ev
    case KeyEvent(down, key, scancode, alt, ctrl) => KeyFilter(s, down, key, scancode, alt, ctrl, consoleKeys)
    case TextInput(text) => TextFilter(s, text)
    case MouseMotion(x, y, xrel, yrel) =>
      var e := if shellActive then SysEvent(SeMouseAbsolute, Num(x), y, 0, 0, 0) else SysEvent(SeMouse, Num(xrel), yrel, 0, 0, 0);
      (Que(s, e).(mousePolls := s.mousePolls + [MousePoll(DeltaX, xrel), MousePoll(DeltaY, yrel)]), false)
    case MouseWheel(wy) =>
      var k := if wy > 0.0 then MWheelUp else MWheelDown;
      var s1 := s.(mousePolls := s.mousePolls + [MousePoll(DeltaZ, if wy > 0.0 then 1 else -1)]);
      (Que(Que(s1, KeyEv(k, 1)), KeyEv(k, 0)), false)
    case MouseButton(down, button) =>
      if button == SDL_BUTTON_LEFT then (ButtonPress(s, Mouse1, Action1, down), false)
      else if button == SDL_BUTTON_MIDDLE then (ButtonPress(s, Mouse3, Action3, down), false)
      else if button == SDL_BUTTON_RIGHT then (ButtonPress(s, Mouse2, Action2, down), false)
      else (s, false)
    case UserEvent(code, length, data) =>
      if code == SeConsole then (Que(s, SysEvent(SeConsole, Num(0), 0, length, data, 0)), false) else (s, true)
    case Quit => (s.(pushed := s.pushed + ["quit"]), false)
    case Other => (s, true)
  }

  /** SDL_EVENT_KEY_DOWN and SDL_EVENT_KEY_UP: Alt+Enter and Ctrl+G are consumed by the shortcuts, the rest go to KeyPress. */
  function KeyFilter(s: Events, down: bool, key: int, scancode: int, alt: bool, ctrl: bool, consoleKeys: (int, int)): (Events, bool)
    requires EventsOk(s)
  {
    if down && key == SDLK_RETURN && alt then (s.(pushed := s.pushed + ["vid_restart"]), false)
    else if down && key == SDLK_G && ctrl then (s.(noGrab := !s.noGrab), false)
    else KeyPress(s, EventKey(key, scancode, consoleKeys), down)
  }

  /** The SE_CHAR events of a text, one per byte read as a signed char. */
  function TextChars(text: seq<Byte>): (es: seq<SysEvent>)
    ensures |es| == |text| && forall i :: 0 <= i < |text| ==> es[i] == CharEv(Signed(text[i]))
  {
    seq(|text|, i requires 0 <= i < |text| => CharEv(Signed(text[i])))
  }

  /** The bytes of a C string before its terminating NUL. */
  predicate NoNul(text: seq<Byte>) {
    forall i :: 0 <= i < |text| ==> text[i] != 0
  }

  /** SDL_EVENT_TEXT_INPUT: SDL keeps the event unless the text held several characters. */
  function TextFilter(s: Events, text: seq<Byte>): (Events, bool)
    requires EventsOk(s) && NoNul(text)
  {
    if |text| == 0 then (s, true)
    else if |text| == 1 then (Que(s, CharEv(Signed(text[0]))), true)
    else (QueAll(s, TextChars(text)), false)
  }

  /** A key the engine knows queues its SE_KEY event and one keyboard poll; a press of backspace adds the SE_CHAR backspace. */
  function KeyPress(s: Events, key: Option<KeyNum>, down: bool): (Events, bool)
    requires EventsOk(s)
  {
    match key
    case None => (s, false)
    case Some(k) =>
      var s1 := Que(s, KeyEv(k, Flag(down))).(kbdPolls := s.kbdPolls + [KbdPoll(k, down)]);
      (if k == Backspace && down then Que(s1, SysEvent(SeChar, KeyCode(Backspace), 0, 0, 0, 0)) else s1, false)
  }

  function ButtonPress(s: Events, k: KeyNum, a: MouseAction, down: bool): Events
    requires EventsOk(s)
  {
    Que(s, KeyEv(k, Flag(down))).(mousePolls := s.mousePolls + [MousePoll(a, Flag(down))])
  }

  /**
   * A wheel step records one M_DELTAZ of +1 or -1 and queues the matching
   * wheel key pressed and then released, back to back.
   */
  lemma WheelPairs(s: Events, wy: real, consoleKeys: (int, int), shellActive: bool)
    requires EventsOk(s)
    ensures var r := Handle(s, MouseWheel(wy), consoleKeys, shellActive).0;
      var k := if wy > 0.0 then MWheelUp else MWheelDown;
      EventsOk(r) && !Handle(s, MouseWheel(wy), consoleKeys, shellActive).1
      && Pending(r) == Pending(s) + [KeyEv(k, 1), KeyEv(k, 0)]
      && r.mousePolls == s.mousePolls + [MousePoll(DeltaZ, if wy > 0.0 then 1 else -1)]
      && r.kbdPolls == s.kbdPolls
  {
  }

  /** Every event the filter handles only appends: nothing queued or polled before is lost or reordered. */
  lemma HandleAppends(s: Events, ev: SdlEvent, consoleKeys: (int, int), shellActive: bool)
    requires EventsOk(s) && (ev.TextInput? ==> NoNul(ev.text))
    ensures var r := Handle(s, ev, consoleKeys, shellActive).0;
      EventsOk(r) && r.head == s.head && s.queue <= r.queue && s.kbdPolls <= r.kbdPolls && s.mousePolls <= r.mousePolls
  {
    match ev
    case KeyEvent(down, key, scancode, alt, ctrl) =>
      KeyFilterAppends(s, down, key, scancode, alt, ctrl, consoleKeys);
    case TextInput(text) =>
      TextQueuesEachByte(s, text);
      if |text| > 1 {
        QueAllAppends(s, TextChars(text));
      }
    case _ =>
  }

  lemma KeyFilterAppends(s: Events, down: bool, key: int, scancode: int, alt: bool, ctrl: bool, consoleKeys: (int, int))
    requires EventsOk(s)
    ensures var r := KeyFilter(s, down, key, scancode, alt, ctrl, consoleKeys).0;
      EventsOk(r) && r.head == s.head && s.queue <= r.queue && s.kbdPolls <= r.kbdPolls
      && r.mousePolls == s.mousePolls
  {
  }

  lemma {:induction false} QueAllAppends(s: Events, es: seq<SysEvent>)
    requires EventsOk(s)
    ensures var r := QueAll(s, es); r.queue == s.queue + es && r.head == s.head && r == s.(queue := r.queue)
    decreases |es|
  {
    if |es| > 0 {
      QueAllAppends(Que(s, es[0]), es[1..]);
      assert s.queue + es == (s.queue + [es[0]]) + es[1..];
    }
  }

  /**
   * Text input queues one SE_CHAR per byte, in order, as signed chars; SDL
   * keeps the event only when the text was empty or a single character.
   */
  lemma TextQueuesEachByte(s: Events, text: seq<Byte>)
    requires EventsOk(s) && NoNul(text)
    ensures var r := TextFilter(s, text);
      EventsOk(r.0) && Pending(r.0) == Pending(s) + TextChars(text) && (r.1 <==> |text| <= 1)
      && r.0.kbdPolls == s.kbdPolls && r.0.mousePolls == s.mousePolls
  {
    if |text| > 1 {
      QueAllAppends(s, TextChars(text));
    } else if |text| == 1 {
      assert TextChars(text) == [CharEv(Signed(text[0]))];
    }
  }

  /**
   * A key event the engine knows (a mapped key or a console key) queues its
   * SE_KEY event with the up/down state and records one keyboard poll;
   * a press of backspace also queues the SE_CHAR backspace. An unmapped key
   * changes nothing.
   */
  lemma KeyEventQueues(s: Events, down: bool, key: int, scancode: int, alt: bool, ctrl: bool, consoleKeys: (int, int), shellActive: bool)
    requires EventsOk(s)
    requires !(down && key == SDLK_RETURN && alt) && !(down && key == SDLK_G && ctrl)
    ensures var r := Handle(s, KeyEvent(down, key, scancode, alt, ctrl), consoleKeys, shellActive);
      match EventKey(key, scancode, consoleKeys)
      case None => r == (s, false)
      case Some(k) =>
        r.0.kbdPolls == s.kbdPolls + [KbdPoll(k, down)] && r.0.mousePolls == s.mousePolls
        && Pending(r.0) == Pending(s) + [KeyEv(k, Flag(down))]
             + (if k == Backspace && down then [SysEvent(SeChar, KeyCode(Backspace), 0, 0, 0, 0)] else [])
  {
  }

  /**
   * The two shortcuts of a key press: Alt+Enter pushes "vid_restart",
   * Ctrl+G flips in_nograb. Either is consumed, and queues and polls
   * nothing; a key release never triggers them.
   */
  lemma KeyShortcuts(s: Events, down: bool, key: int, scancode: int, alt: bool, ctrl: bool, consoleKeys: (int, int), shellActive: bool)
    requires EventsOk(s)
    ensures var r := Handle(s, KeyEvent(down, key, scancode, alt, ctrl), consoleKeys, shellActive);
      down && key == SDLK_RETURN && alt ==> r == (s.(pushed := s.pushed + ["vid_restart"]), false)
    ensures var r := Handle(s, KeyEvent(down, key, scancode, alt, ctrl), consoleKeys, shellActive);
      down && key == SDLK_G && ctrl ==> r == (s.(noGrab := !s.noGrab), false)
    ensures var r := Handle(s, KeyEvent(down, key, scancode, alt, ctrl), consoleKeys, shellActive);
      r.0.pushed == s.pushed + (if down && key == SDLK_RETURN && alt then ["vid_restart"] else [])
      && (r.0.noGrab <==> (s.noGrab != (down && key == SDLK_G && ctrl)))
  {
  }

  // ---------------------------------------------------------------------
  // The lists as the source keeps them

  class EventSystem {
    var kbdPolls: seq<KbdPoll>
    var mousePolls: seq<MousePoll>
    var eventQueue: seq<SysEvent>
    var eventHead: int
    var pushed: seq<string>
    var noGrab: bool

    function Snapshot(): Events
      reads this
    {
      Events(kbdPolls, mousePolls, eventQueue, eventHead, pushed, noGrab)
    }

    ghost predicate Valid()
      reads this
    {
      EventsOk(Snapshot())
    }

    /** The file statics at start-up: everything empty, eventHead 0. */
    constructor ()
      ensures Valid() && Snapshot() == Events([], [], [], 0, [], false)
    {
      kbdPolls, mousePolls, eventQueue, eventHead, pushed, noGrab := [], [], [], 0, [], false;
    }

    /** Sys_QueEvent. */
    method QueEvent(evType: EventType, value: EvValue, value2: int, ptrLength: int, ptr: int, inputDevice: int)
      requires Valid()
      modifies this
      ensures Valid() && Snapshot() == Que(old(Snapshot()), SysEvent(evType, value, value2, ptrLength, ptr, inputDevice))
    {
      eventQueue := eventQueue + [SysEvent(evType, value, value2, ptrLength, ptr, inputDevice)];
    }

    /** Sys_GetEvent. */
    method GetEvent() returns (res: SysEvent)
      requires Valid()
      modifies this
      ensures Valid() && (res, Snapshot()) == Get(old(Snapshot()))
    {
      var eventNum := |eventQueue|;
      if eventNum != 0 && eventHead < eventNum {
        res := eventQueue[eventHead];
        eventHead := eventHead + 1;
        return res;
      }
      return NO_EVENT;
    }

    /** Sys_ClearEvents. */
    method ClearEvents()
      modifies this
      ensures Valid() && Snapshot() == Clear(old(Snapshot()))
    {
      kbdPolls := [];
      mousePolls := [];
      eventQueue := [];
      eventHead := 0;
    }

    /** Sys_PollKeyboardInputEvents. */
    method PollKeyboardInputEvents() returns (n: int)
      ensures n == |kbdPolls|
    {
      return |kbdPolls|;
    }

    /** Sys_ReturnKeyboardInputEvent: key and state are in-out parameters, left as they were past the end. */
    method ReturnKeyboardEvent(n: int, key0: KeyNum, state0: bool) returns (ret: int, key: KeyNum, state: bool)
      ensures var r := ReturnKeyboardInputEvent(Snapshot(), n);
        ret == r.0 && (key, state) == (if r.1.Some? then (r.1.value.key, r.1.value.state) else (key0, state0))
    {
      if n >= |kbdPolls| || n < 0 {
        return 0, key0, state0;
      }
      key := kbdPolls[n].key;
      state := kbdPolls[n].state;
      return 1, key, state;
    }

    /** Sys_EndKeyboardInputEvents. */
    method EndKeyboardInputEvents()
      modifies this
      ensures Snapshot() == old(Snapshot()).(kbdPolls := [])
    {
      kbdPolls := [];
    }

    /**
     * Sys_PollMouseInputEvents: the output array's length is
     * MAX_MOUSE_EVENTS. The first min(count, MAX_MOUSE_EVENTS) polls are
     * copied in order, their number returned, and the list emptied.
     */
    method PollMouseInputEvents(mouseEvents: array<MousePoll>) returns (numEvents: int)
      modifies this, mouseEvents
      ensures numEvents == (if |old(mousePolls)| > mouseEvents.Length then mouseEvents.Length else |old(mousePolls)|)
      ensures mouseEvents[..numEvents] == old(mousePolls)[..numEvents]
      ensures mouseEvents[numEvents..] == old(mouseEvents[numEvents..])
      ensures Snapshot() == old(Snapshot()).(mousePolls := [])
    {
      numEvents := |mousePolls|;
      if numEvents > mouseEvents.Length {
        numEvents := mouseEvents.Length;
      }
      var i := 0;
      while i < numEvents
        invariant 0 <= i <= numEvents <= |mousePolls|
        invariant mouseEvents[..i] == mousePolls[..i]
        invariant mouseEvents[numEvents..] == old(mouseEvents[numEvents..])
        invariant Snapshot() == old(Snapshot())
      {
        mouseEvents[i] := mousePolls[i];
        i := i + 1;
      }
      mousePolls := [];
    }

    /** sys_HandleSDL_Events for the branches modelled. */
    method HandleSdlEvent(ev: SdlEvent, consoleKeys: (int, int), shellActive: bool) returns (keep: bool)
      requires Valid() && (ev.TextInput? ==> NoNul(ev.text))
      modifies this
      ensures Valid() && (Snapshot(), keep) == Handle(old(Snapshot()), ev, consoleKeys, shellActive)
    {
      match ev {
        case KeyEvent(down, key, scancode, alt, ctrl) =>
          keep := HandleKey(down, key, scancode, alt, ctrl, consoleKeys);
        case TextInput(text) =>
          keep := HandleText(text);
        case MouseMotion(x, y, xrel, yrel) =>
          HandleMotion(x, y, xrel, yrel, shellActive);
          keep := false;
        case MouseWheel(wy) =>
          HandleWheel(wy);
          keep := false;
        case MouseButton(down, button) =>
          HandleButton(down, button);
          keep := false;
        case UserEvent(code, length, data) =>
          if code == SeConsole {
            QueEvent(SeConsole, Num(0), 0, length, data, 0);
            keep := false;
          } else {
            keep := true;
          }
        case Quit =>
          pushed := pushed + ["quit"];
          keep := false;
        case Other =>
          keep := true;
      }
    }

    /** SDL_EVENT_MOUSE_MOTION: absolute coordinates while the shell (menu) is active, relative ones otherwise. */
    method HandleMotion(x: int, y: int, xrel: int, yrel: int, shellActive: bool)
      requires Valid()
      modifies this
      ensures Valid() && Snapshot() == Handle(old(Snapshot()), MouseMotion(x, y, xrel, yrel), (0, 0), shellActive).0
    {
      if shellActive {
        QueEvent(SeMouseAbsolute, Num(x), y, 0, 0, 0);
      } else {
        QueEvent(SeMouse, Num(xrel), yrel, 0, 0, 0);
      }
      ghost var polls := mousePolls;
      mousePolls := mousePolls + [MousePoll(DeltaX, xrel)];
      mousePolls := mousePolls + [MousePoll(DeltaY, yrel)];
      assert mousePolls == polls + [MousePoll(DeltaX, xrel), MousePoll(DeltaY, yrel)];
    }

    /** SDL_EVENT_MOUSE_WHEEL. */
    method HandleWheel(wy: real)
      requires Valid()
      modifies this
      ensures Valid() && Snapshot() == Handle(old(Snapshot()), MouseWheel(wy), (0, 0), false).0
    {
      if wy > 0.0 {
        mousePolls := mousePolls + [MousePoll(DeltaZ, 1)];
        QueEvent(SeKey, KeyCode(MWheelUp), 1, 0, 0, 0);
        QueEvent(SeKey, KeyCode(MWheelUp), 0, 0, 0, 0);
      } else {
        mousePolls := mousePolls + [MousePoll(DeltaZ, -1)];
        QueEvent(SeKey, KeyCode(MWheelDown), 1, 0, 0, 0);
        QueEvent(SeKey, KeyCode(MWheelDown), 0, 0, 0, 0);
      }
    }

    /** SDL_EVENT_MOUSE_BUTTON_DOWN / _UP: the left, middle and right buttons; any other button changes nothing. */
    method HandleButton(down: bool, button: int)
      requires Valid()
      modifies this
      ensures Valid() && Snapshot() == Handle(old(Snapshot()), MouseButton(down, button), (0, 0), false).0
    {
      if button == SDL_BUTTON_LEFT {
        QueEvent(SeKey, KeyCode(Mouse1), Flag(down), 0, 0, 0);
        mousePolls := mousePolls + [MousePoll(Action1, Flag(down))];
      } else if button == SDL_BUTTON_MIDDLE {
        QueEvent(SeKey, KeyCode(Mouse3), Flag(down), 0, 0, 0);
        mousePolls := mousePolls + [MousePoll(Action3, Flag(down))];
      } else if button == SDL_BUTTON_RIGHT {
        QueEvent(SeKey, KeyCode(Mouse2), Flag(down), 0, 0, 0);
        mousePolls := mousePolls + [MousePoll(Action2, Flag(down))];
      }
    }

    /** The SDL_EVENT_KEY_DOWN / SDL_EVENT_KEY_UP case. */
    method HandleKey(down: bool, key: int, scancode: int, alt: bool, ctrl: bool, consoleKeys: (int, int))
      returns (keep: bool)
      requires Valid()
      modifies this
      ensures Valid() && (Snapshot(), keep) == KeyFilter(old(Snapshot()), down, key, scancode, alt, ctrl, consoleKeys)
    {
      keep := false;
      if down && key == SDLK_RETURN && alt {
        pushed := pushed + ["vid_restart"];
        return;
      }
      if down && key == SDLK_G && ctrl {
        noGrab := !noGrab;
        return;
      }
      var k := LookupKey(key, scancode, consoleKeys);
      if k.Some? {
        PressKey(k.value, down);
      }
    }

    /** The engine key of a key event: the console key by scancode, else the map, else the layout's console keys. */
    static method LookupKey(key: int, scancode: int, consoleKeys: (int, int)) returns (k: Option<KeyNum>)
      ensures k == EventKey(key, scancode, consoleKeys)
    {
      if scancode == SDL_SCANCODE_GRAVE {
        return Some(Grave);
      }
      var mapped, isChar := KeyToDoom3(key).0, KeyToDoom3(key).1;
      if mapped == NoKey {
        var uc := scancode % 256;
        if uc == consoleKeys.0 || uc == consoleKeys.1 {
          return Some(Grave);
        }
        return None;
      }
      return Some(mapped);
    }

    /** Queue the SE_KEY event and the keyboard poll of a known key, and the SE_CHAR of a backspace press. */
    method PressKey(k: KeyNum, down: bool)
      requires Valid()
      modifies this
      ensures Valid() && Snapshot() == KeyPress(old(Snapshot()), Some(k), down).0
    {
      QueEvent(SeKey, KeyCode(k), Flag(down), 0, 0, 0);
      kbdPolls := kbdPolls + [KbdPoll(k, down)];
      if k == Backspace && down {
        QueEvent(SeChar, KeyCode(Backspace), 0, 0, 0, 0);
      }
    }

    /** The SDL_EVENT_TEXT_INPUT case: one SE_CHAR per byte of the text. */
    method HandleText(text: seq<Byte>) returns (keep: bool)
      requires Valid() && NoNul(text)
      modifies this
      ensures Valid() && (Snapshot(), keep) == TextFilter(old(Snapshot()), text)
    {
      if |text| == 0 {
        return true;
      }
      if |text| == 1 {
        QueEvent(SeChar, Num(Signed(text[0])), 0, 0, 0, 0);
        return true;
      }
      ghost var chars := TextChars(text);
      ghost var s0 := Snapshot();
      QueAllAppends(s0, chars);
      var pos := 0;
      while pos < |text|
        invariant 0 <= pos <= |text| && Valid()
        invariant Snapshot() == s0.(queue := s0.queue + chars[..pos])
      {
        QueEvent(SeChar, Num(Signed(text[pos])), 0, 0, 0, 0);
        assert chars[..pos + 1] == chars[..pos] + [chars[pos]];
        pos := pos + 1;
      }
      assert chars[..pos] == chars;
      return false;
    }
  }
}
