/**
 * Key identity layer of the Wooting keyboard bindings: the error type, the closed
 * set of physical keys, and the three tables defined over it (display label,
 * scan-index decode, scan-matrix address).
 */
module Wooting {

  /** An unsigned 8-bit value (Rust `u8`). */
  type byte = x: int | 0 <= x < 0x100

  /** A signed 32-bit value (Rust `i32`). */
  type int32 = x: int | -0x8000_0000 <= x < 0x8000_0000

  datatype Option<T> = None | Some(value: T)

  /** The two failures the bindings report to their callers. */
  datatype WootingError = Disconnected | InvalidBufferSize

  /** Rust's `Result<T, WootingError>`. */
  datatype Result<T> = Ok(value: T) | Err(error: WootingError)

  /** Dimensions of the scan matrix (the `ROWS` and `COLUMNS` of the RGB module). */
  const Rows: nat := 6
  const Columns: nat := 21

  /** Every physical key the hardware recognises, in declaration order. */
  datatype Key =
      Escape | F1 | F2 | F3 | F4 | F5 | F6 | F7
    | F8 | F9 | F10 | F11 | F12 | PrintScreen | Pause | ScrollLock
    | A1 | A2 | A3 | Mode | Tilde | One | Two | Three
    | Four | Five | Six | Seven | Eight | Nine | Zero | Dash
    | Equals | Backspace | Insert | Home | PageUp | NumLock | NumDivide | NumMultiply
    | NumSubtract | Tab | Q | W | E | R | T | Y
    | U | I | O | P | LeftBracket | RightBracket | Backslash | Delete
    | End | PageDown | NumSeven | NumEight | NumNine | NumAddition | CapsLock | A
    | S | D | F | G | H | J | K | L
    | SemiColon | Apostrophe | ISO1 | Return | NumFour | NumFive | NumSix | LeftShift
    | ISO2 | Z | X | C | V | B | N | M
    | Comma | Period | ForwardSlash | RightShift | UpArrow | NumOne | NumTwo | NumThree
    | NumReturn | LeftControl | LeftMod | LeftAlt | Space | RightAlt | RightMod | Fn
    | RightControl | LeftArrow | DownArrow | RightArrow | NumZero | NumDelete

  /** The human-readable label of a key; total, and never empty. */
  function Label(key: Key): (s: string)
    ensures |s| > 0
  {
    match key
    case Escape => "Esc"
    case F1 => "F1"
    case F2 => "F2"
    case F3 => "F3"
    case F4 => "F4"
    case F5 => "F5"
    case F6 => "F6"
    case F7 => "F7"
    case F8 => "F8"
    case F9 => "F9"
    case F10 => "F10"
    case F11 => "F11"
    case F12 => "F12"
    case PrintScreen => "Print Screen"
    case Pause => "Pause"
    case ScrollLock => "Scroll Lock"
    case A1 => "A1"
    case A2 => "A2"
    case A3 => "A3"
    case Mode => "Mode"
    case Tilde => "~"
    case One => "1"
    case Two => "2"
    case Three => "3"
    case Four => "4"
    case Five => "5"
    case Six => "6"
    case Seven => "7"
    case Eight => "8"
    case Nine => "9"
    case Zero => "0"
    case Dash => "-"
    case Equals => "="
    case Backspace => "Backspace"
    case Insert => "Insert"
    case Home => "Home"
    case PageUp => "Page Up"
    case NumLock => "Num Lock"
    case NumDivide => "\\"
    case NumMultiply => "*"
    case NumSubtract => "-"
    case Tab => "Tab"
    case Q => "Q"
    case W => "W"
    case E => "E"
    case R => "R"
    case T => "T"
    case Y => "Y"
    case U => "U"
    case I => "I"
    case O => "O"
    case P => "P"
    case LeftBracket => "["
    case RightBracket => "]"
    case Backslash => "\\"
    case Delete => "Delete"
    case End => "End"
    case PageDown => "Page Down"
    case NumSeven => "7"
    case NumEight => "8"
    case NumNine => "9"
    case NumAddition => "+"
    case CapsLock => "Caps Lock"
    case A => "A"
    case S => "S"
    case D => "D"
    case F => "F"
    case G => "G"
    case H => "H"
    case J => "J"
    case K => "K"
    case L => "L"
    case SemiColon => ";"
    case Apostrophe => "'"
    case ISO1 => "ISO"
    case Return => "Return"
    case NumFour => "4"
    case NumFive => "5"
    case NumSix => "6"
    case LeftShift => "Left Shift"
    case ISO2 => "ISO"
    case Z => "Z"
    case X => "X"
    case C => "C"
    case V => "V"
    case B => "B"
    case N => "N"
    case M => "M"
    case Comma => "Comma"
    case Period => "Period"
    case ForwardSlash => "/"
    case RightShift => "Right Shift"
    case UpArrow => "Up Arrow"
    case NumOne => "1"
    case NumTwo => "2"
    case NumThree => "3"
    case NumReturn => "Return"
    case LeftControl => "Left Control"
    case LeftMod => "Left Mod"
    case LeftAlt => "Left Alt"
    case Space => "Space"
    case RightAlt => "Right Alt"
    case RightMod => "Right Mod"
    case Fn => "Fn"
    case RightControl => "Right Control"
    case LeftArrow => "Left Arrow"
    case DownArrow => "Down Arrow"
    case RightArrow => "Right Arrow"
    case NumZero => "0"
    case NumDelete => "Delete"
  }

  /**
   * Decodes a scan index of the analog read buffer. Indices 88, 89 and 111..255
   * have no key; 40 and 55 both decode to `I`, and 45 (the index shared by the
   * layout-dependent ISO key and `Backslash`) decodes to `ISO1`, so `Backslash`
   * and `Apostrophe` are never produced.
   */
  function FromScanIndex(index: byte): Option<Key>
  {
    match index
    case 0 => Some(Escape)
    case 1 => Some(F1)
    case 2 => Some(F2)
    case 3 => Some(F3)
    case 4 => Some(F4)
    case 5 => Some(F5)
    case 6 => Some(F6)
    case 7 => Some(F7)
    case 8 => Some(F8)
    case 9 => Some(F9)
    case 10 => Some(F10)
    case 11 => Some(F11)
    case 12 => Some(F12)
    case 13 => Some(PrintScreen)
    case 14 => Some(Pause)
    case 15 => Some(ScrollLock)
    case 16 => Some(Tilde)
    case 17 => Some(One)
    case 18 => Some(Two)
    case 19 => Some(Three)
    case 20 => Some(Four)
    case 21 => Some(Five)
    case 22 => Some(Six)
    case 23 => Some(Seven)
    case 24 => Some(Eight)
    case 25 => Some(Nine)
    case 26 => Some(Zero)
    case 27 => Some(Dash)
    case 28 => Some(Equals)
    case 29 => Some(Backspace)
    case 30 => Some(Insert)
    case 31 => Some(Home)
    case 32 => Some(Tab)
    case 33 => Some(Q)
    case 34 => Some(W)
    case 35 => Some(E)
    case 36 => Some(R)
    case 37 => Some(T)
    case 38 => Some(Y)
    case 39 => Some(U)
    case 40 => Some(I)
    case 41 => Some(O)
    case 42 => Some(P)
    case 43 => Some(LeftBracket)
    case 44 => Some(RightBracket)
    case 45 => Some(ISO1)
    case 46 => Some(Delete)
    case 47 => Some(End)
    case 48 => Some(CapsLock)
    case 49 => Some(A)
    case 50 => Some(S)
    case 51 => Some(D)
    case 52 => Some(F)
    case 53 => Some(G)
    case 54 => Some(H)
    case 55 => Some(I)
    case 56 => Some(J)
    case 57 => Some(K)
    case 58 => Some(L)
    case 59 => Some(SemiColon)
    case 60 => Some(Return)
    case 61 => Some(PageUp)
    case 62 => Some(PageDown)
    case 63 => Some(UpArrow)
    case 64 => Some(LeftShift)
    case 65 => Some(Z)
    case 66 => Some(X)
    case 67 => Some(C)
    case 68 => Some(V)
    case 69 => Some(B)
    case 70 => Some(N)
    case 71 => Some(M)
    case 72 => Some(Comma)
    case 73 => Some(Period)
    case 74 => Some(ForwardSlash)
    case 75 => Some(RightShift)
    case 76 => Some(LeftArrow)
    case 77 => Some(DownArrow)
    case 78 => Some(RightArrow)
    case 79 => Some(RightControl)
    case 80 => Some(LeftControl)
    case 81 => Some(LeftMod)
    case 82 => Some(LeftAlt)
    case 83 => Some(Space)
    case 84 => Some(RightAlt)
    case 85 => Some(RightMod)
    case 86 => Some(Fn)
    case 87 => Some(ISO2)
    case 90 => Some(NumOne)
    case 91 => Some(NumTwo)
    case 92 => Some(NumThree)
    case 93 => Some(NumReturn)
    case 94 => Some(NumDelete)
    case 95 => Some(NumZero)
    case 96 => Some(NumSix)
    case 97 => Some(NumFive)
    case 98 => Some(NumFour)
    case 99 => Some(NumAddition)
    case 100 => Some(NumNine)
    case 101 => Some(NumEight)
    case 102 => Some(NumSeven)
    case 103 => Some(NumSubtract)
    case 104 => Some(NumMultiply)
    case 105 => Some(NumDivide)
    case 106 => Some(NumLock)
    case 107 => Some(A1)
    case 108 => Some(A2)
    case 109 => Some(A3)
    case 110 => Some(Mode)
    case _ => None
  }

  /** The `(row, column)` cell of a key in the 6 x 21 scan matrix. */
  function MatrixAddress(key: Key): (cell: (byte, byte))
    ensures cell.0 < Rows && cell.1 < Columns
  {
    match key
    case Escape => (0, 0)
    case F1 => (0, 2)
    case F2 => (0, 3)
    case F3 => (0, 4)
    case F4 => (0, 5)
    case F5 => (0, 6)
    case F6 => (0, 7)
    case F7 => (0, 8)
    case F8 => (0, 9)
    case F9 => (0, 10)
    case F10 => (0, 11)
    case F11 => (0, 12)
    case F12 => (0, 13)
    case PrintScreen => (0, 14)
    case Pause => (0, 15)
    case ScrollLock => (0, 16)
    case A1 => (0, 17)
    case A2 => (0, 18)
    case A3 => (0, 19)
    case Mode => (0, 20)
    case Tilde => (1, 0)
    case One => (1, 1)
    case Two => (1, 2)
    case Three => (1, 3)
    case Four => (1, 4)
    case Five => (1, 5)
    case Six => (1, 6)
    case Seven => (1, 7)
    case Eight => (1, 8)
    case Nine => (1, 9)
    case Zero => (1, 10)
    case Dash => (1, 11)
    case Equals => (1, 12)
    case Backspace => (1, 13)
    case Insert => (1, 14)
    case Home => (1, 15)
    case PageUp => (1, 16)
    case NumLock => (1, 17)
    case NumDivide => (1, 18)
    case NumMultiply => (1, 19)
    case NumSubtract => (1, 20)
    case Tab => (2, 0)
    case Q => (2, 1)
    case W => (2, 2)
    case E => (2, 3)
    case R => (2, 4)
    case T => (2, 5)
    case Y => (2, 6)
    case U => (2, 7)
    case I => (2, 8)
    case O => (2, 9)
    case P => (2, 10)
    case LeftBracket => (2, 11)
    case RightBracket => (2, 12)
    case Backslash => (2, 13)
    case Delete => (2, 14)
    case End => (2, 15)
    case PageDown => (2, 16)
    case NumSeven => (2, 17)
    case NumEight => (2, 18)
    case NumNine => (2, 19)
    case NumAddition => (2, 20)
    case CapsLock => (3, 0)
    case A => (3, 1)
    case S => (3, 2)
    case D => (3, 3)
    case F => (3, 4)
    case G => (3, 5)
    case H => (3, 6)
    case J => (3, 7)
    case K => (3, 8)
    case L => (3, 9)
    case SemiColon => (3, 10)
    case Apostrophe => (3, 11)
    case ISO1 => (3, 12)
    case Return => (3, 13)
    case NumFour => (3, 17)
    case NumFive => (3, 18)
    case NumSix => (3, 19)
    case LeftShift => (4, 0)
    case ISO2 => (4, 1)
    case Z => (4, 2)
    case X => (4, 3)
    case C => (4, 4)
    case V => (4, 5)
    case B => (4, 6)
    case N => (4, 7)
    case M => (4, 8)
    case Comma => (4, 9)
    case Period => (4, 10)
    case ForwardSlash => (4, 11)
    case RightShift => (4, 13)
    case UpArrow => (4, 15)
    case NumOne => (4, 17)
    case NumTwo => (4, 18)
    case NumThree => (4, 19)
    case NumReturn => (4, 20)
    case LeftControl => (5, 0)
    case LeftMod => (5, 1)
    case LeftAlt => (5, 2)
    case Space => (5, 6)
    case RightAlt => (5, 10)
    case RightMod => (5, 11)
    case Fn => (5, 12)
    case RightControl => (5, 13)
    case LeftArrow => (5, 14)
    case DownArrow => (5, 15)
    case RightArrow => (5, 16)
    case NumZero => (5, 18)
    case NumDelete => (5, 19)
  }

  /**
   * The key, if any, whose matrix address is `(row, column)`: the inverse of
   * `MatrixAddress`, written out cell by cell. Sixteen of the 126 cells are empty.
   */
  function KeyAt(row: int, column: int): Option<Key>
  {
    match row
    case 0 =>
      (match column
      case 0 => Some(Escape)
      case 2 => Some(F1)
      case 3 => Some(F2)
      case 4 => Some(F3)
      case 5 => Some(F4)
      case 6 => Some(F5)
      case 7 => Some(F6)
      case 8 => Some(F7)
      case 9 => Some(F8)
      case 10 => Some(F9)
      case 11 => Some(F10)
      case 12 => Some(F11)
      case 13 => Some(F12)
      case 14 => Some(PrintScreen)
      case 15 => Some(Pause)
      case 16 => Some(ScrollLock)
      case 17 => Some(A1)
      case 18 => Some(A2)
      case 19 => Some(A3)
      case 20 => Some(Mode)
      case _ => None)
    case 1 =>
      (match column
      case 0 => Some(Tilde)
      case 1 => Some(One)
      case 2 => Some(Two)
      case 3 => Some(Three)
      case 4 => Some(Four)
      case 5 => Some(Five)
      case 6 => Some(Six)
      case 7 => Some(Seven)
      case 8 => Some(Eight)
      case 9 => Some(Nine)
      case 10 => Some(Zero)
      case 11 => Some(Dash)
      case 12 => Some(Equals)
      case 13 => Some(Backspace)
      case 14 => Some(Insert)
      case 15 => Some(Home)
      case 16 => Some(PageUp)
      case 17 => Some(NumLock)
      case 18 => Some(NumDivide)
      case 19 => Some(NumMultiply)
      case 20 => Some(NumSubtract)
      case _ => None)
    case 2 =>
      (match column
      case 0 => Some(Tab)
      case 1 => Some(Q)
      case 2 => Some(W)
      case 3 => Some(E)
      case 4 => Some(R)
      case 5 => Some(T)
      case 6 => Some(Y)
      case 7 => Some(U)
      case 8 => Some(I)
      case 9 => Some(O)
      case 10 => Some(P)
      case 11 => Some(LeftBracket)
      case 12 => Some(RightBracket)
      case 13 => Some(Backslash)
      case 14 => Some(Delete)
      case 15 => Some(End)
      case 16 => Some(PageDown)
      case 17 => Some(NumSeven)
      case 18 => Some(NumEight)
      case 19 => Some(NumNine)
      case 20 => Some(NumAddition)
      case _ => None)
    case 3 =>
      (match column
      case 0 => Some(CapsLock)
      case 1 => Some(A)
      case 2 => Some(S)
      case 3 => Some(D)
      case 4 => Some(F)
      case 5 => Some(G)
      case 6 => Some(H)
      case 7 => Some(J)
      case 8 => Some(K)
      case 9 => Some(L)
      case 10 => Some(SemiColon)
      case 11 => Some(Apostrophe)
      case 12 => Some(ISO1)
      case 13 => Some(Return)
      case 17 => Some(NumFour)
      case 18 => Some(NumFive)
      case 19 => Some(NumSix)
      case _ => None)
    case 4 =>
      (match column
      case 0 => Some(LeftShift)
      case 1 => Some(ISO2)
      case 2 => Some(Z)
      case 3 => Some(X)
      case 4 => Some(C)
      case 5 => Some(V)
      case 6 => Some(B)
      case 7 => Some(N)
      case 8 => Some(M)
      case 9 => Some(Comma)
      case 10 => Some(Period)
      case 11 => Some(ForwardSlash)
      case 13 => Some(RightShift)
      case 15 => Some(UpArrow)
      case 17 => Some(NumOne)
      case 18 => Some(NumTwo)
      case 19 => Some(NumThree)
      case 20 => Some(NumReturn)
      case _ => None)
    case 5 =>
      (match column
      case 0 => Some(LeftControl)
      case 1 => Some(LeftMod)
      case 2 => Some(LeftAlt)
      case 6 => Some(Space)
      case 10 => Some(RightAlt)
      case 11 => Some(RightMod)
      case 12 => Some(Fn)
      case 13 => Some(RightControl)
      case 14 => Some(LeftArrow)
      case 15 => Some(DownArrow)
      case 16 => Some(RightArrow)
      case 18 => Some(NumZero)
      case 19 => Some(NumDelete)
      case _ => None)
    case _ => None
  }

  /**
   * The scan index reported for the key at `(row, column)`, if any: the lowest
   * index that decodes to that key. The cell of `I` answers 40 (55 decodes to it
   * too); the cells of `Backslash` and `Apostrophe`, and the empty cells, have none.
   */
  function ScanIndexAt(row: int, column: int): Option<byte>
  {
    match row
    case 0 =>
      (match column
      case 0 => Some(0)
      case 2 => Some(1)
      case 3 => Some(2)
      case 4 => Some(3)
      case 5 => Some(4)
      case 6 => Some(5)
      case 7 => Some(6)
      case 8 => Some(7)
      case 9 => Some(8)
      case 10 => Some(9)
      case 11 => Some(10)
      case 12 => Some(11)
      case 13 => Some(12)
      case 14 => Some(13)
      case 15 => Some(14)
      case 16 => Some(15)
      case 17 => Some(107)
      case 18 => Some(108)
      case 19 => Some(109)
      case 20 => Some(110)
      case _ => None)
    case 1 =>
      (match column
      case 0 => Some(16)
      case 1 => Some(17)
      case 2 => Some(18)
      case 3 => Some(19)
      case 4 => Some(20)
      case 5 => Some(21)
      case 6 => Some(22)
      case 7 => Some(23)
      case 8 => Some(24)
      case 9 => Some(25)
      case 10 => Some(26)
      case 11 => Some(27)
      case 12 => Some(28)
      case 13 => Some(29)
      case 14 => Some(30)
      case 15 => Some(31)
      case 16 => Some(61)
      case 17 => Some(106)
      case 18 => Some(105)
      case 19 => Some(104)
      case 20 => Some(103)
      case _ => None)
    case 2 =>
      (match column
      case 0 => Some(32)
      case 1 => Some(33)
      case 2 => Some(34)
      case 3 => Some(35)
      case 4 => Some(36)
      case 5 => Some(37)
      case 6 => Some(38)
      case 7 => Some(39)
      case 8 => Some(40)
      case 9 => Some(41)
      case 10 => Some(42)
      case 11 => Some(43)
      case 12 => Some(44)
      case 14 => Some(46)
      case 15 => Some(47)
      case 16 => Some(62)
      case 17 => Some(102)
      case 18 => Some(101)
      case 19 => Some(100)
      case 20 => Some(99)
      case _ => None)
    case 3 =>
      (match column
      case 0 => Some(48)
      case 1 => Some(49)
      case 2 => Some(50)
      case 3 => Some(51)
      case 4 => Some(52)
      case 5 => Some(53)
      case 6 => Some(54)
      case 7 => Some(56)
      case 8 => Some(57)
      case 9 => Some(58)
      case 10 => Some(59)
      case 12 => Some(45)
      case 13 => Some(60)
      case 17 => Some(98)
      case 18 => Some(97)
      case 19 => Some(96)
      case _ => None)
    case 4 =>
      (match column
      case 0 => Some(64)
      case 1 => Some(87)
      case 2 => Some(65)
      case 3 => Some(66)
      case 4 => Some(67)
      case 5 => Some(68)
      case 6 => Some(69)
      case 7 => Some(70)
      case 8 => Some(71)
      case 9 => Some(72)
      case 10 => Some(73)
      case 11 => Some(74)
      case 13 => Some(75)
      case 15 => Some(63)
      case 17 => Some(90)
      case 18 => Some(91)
      case 19 => Some(92)
      case 20 => Some(93)
      case _ => None)
    case 5 =>
      (match column
      case 0 => Some(80)
      case 1 => Some(81)
      case 2 => Some(82)
      case 6 => Some(83)
      case 10 => Some(84)
      case 11 => Some(85)
      case 12 => Some(86)
      case 13 => Some(79)
      case 14 => Some(76)
      case 15 => Some(77)
      case 16 => Some(78)
      case 18 => Some(95)
      case 19 => Some(94)
      case _ => None)
    case _ => None
  }

  /** The scan index a key is reported under, if any: the one recorded at its matrix cell. */
  function ScanIndexOf(key: Key): Option<byte>
  {
    ScanIndexAt(MatrixAddress(key).0, MatrixAddress(key).1)
  }

  /**
   * The decode fails exactly on 88, 89 and 111..255, and never produces
   * `Backslash` or `Apostrophe`.
   */
  lemma DecodableIndices(index: byte)
    ensures FromScanIndex(index).None? <==> index == 88 || index == 89 || index >= 111
    ensures FromScanIndex(index) != Some(Backslash) && FromScanIndex(index) != Some(Apostrophe)
  {
  }

  /**
   * `KeyAt` undoes `MatrixAddress`: every key is found at its own cell. The proof
   * splits the keys into groups of ten to keep each proof obligation small; the
   * later groups, whose cells sit deeper in the table, go one key at a time.
   */
  lemma KeyAtMatrixAddress(key: Key)
    ensures KeyAt(MatrixAddress(key).0, MatrixAddress(key).1) == Some(key)
  {
    match key
    case Escape | F1 | F2 | F3 | F4 | F5 | F6 | F7 | F8 | F9 => KeyAtMatrixAddressGroup0(key);
    case F10 | F11 | F12 | PrintScreen | Pause | ScrollLock | A1 | A2 | A3 | Mode => KeyAtMatrixAddressGroup1(key);
    case Tilde | One | Two | Three | Four | Five | Six | Seven | Eight | Nine => KeyAtMatrixAddressGroup2(key);
    case Zero | Dash | Equals | Backspace | Insert | Home | PageUp | NumLock | NumDivide | NumMultiply => KeyAtMatrixAddressGroup3(key);
    case NumSubtract | Tab | Q | W | E | R | T | Y | U | I => KeyAtMatrixAddressGroup4(key);
    case O | P | LeftBracket | RightBracket | Backslash | Delete | End | PageDown | NumSeven | NumEight => KeyAtMatrixAddressGroup5(key);
    case NumNine | NumAddition | CapsLock | A | S | D | F | G | H | J => KeyAtMatrixAddressGroup6(key);
    case K | L | SemiColon | Apostrophe | ISO1 | Return | NumFour | NumFive | NumSix | LeftShift => KeyAtMatrixAddressGroup7(key);
    case ISO2 | Z | X | C | V | B | N | M | Comma | Period => KeyAtMatrixAddressGroup8(key);
    case ForwardSlash | RightShift | UpArrow | NumOne | NumTwo | NumThree | NumReturn | LeftControl | LeftMod | LeftAlt => KeyAtMatrixAddressGroup9(key);
    case Space | RightAlt | RightMod | Fn | RightControl | LeftArrow | DownArrow | RightArrow | NumZero | NumDelete => KeyAtMatrixAddressGroup10(key);
  }

  lemma KeyAtMatrixAddressGroup0(key: Key)
    requires key == Escape || key == F1 || key == F2 || key == F3 || key == F4 || key == F5 || key == F6 || key == F7 || key == F8 || key == F9
    ensures KeyAt(MatrixAddress(key).0, MatrixAddress(key).1) == Some(key)
  {
  }

  lemma KeyAtMatrixAddressGroup1(key: Key)
    requires key == F10 || key == F11 || key == F12 || key == PrintScreen || key == Pause || key == ScrollLock || key == A1 || key == A2 || key == A3 || key == Mode
    ensures KeyAt(MatrixAddress(key).0, MatrixAddress(key).1) == Some(key)
  {
  }

  lemma KeyAtMatrixAddressGroup2(key: Key)
    requires key == Tilde || key == One || key == Two || key == Three || key == Four || key == Five || key == Six || key == Seven || key == Eight || key == Nine
    ensures KeyAt(MatrixAddress(key).0, MatrixAddress(key).1) == Some(key)
  {
  }

  lemma KeyAtMatrixAddressGroup3(key: Key)
    requires key == Zero || key == Dash || key == Equals || key == Backspace || key == Insert || key == Home || key == PageUp || key == NumLock || key == NumDivide || key == NumMultiply
    ensures KeyAt(MatrixAddress(key).0, MatrixAddress(key).1) == Some(key)
  {
  }

  lemma KeyAtMatrixAddressGroup4(key: Key)
    requires key == NumSubtract || key == Tab || key == Q || key == W || key == E || key == R || key == T || key == Y || key == U || key == I
    ensures KeyAt(MatrixAddress(key).0, MatrixAddress(key).1) == Some(key)
  {
  }

  lemma KeyAtMatrixAddressGroup5(key: Key)
    requires key == O || key == P || key == LeftBracket || key == RightBracket || key == Backslash || key == Delete || key == End || key == PageDown || key == NumSeven || key == NumEight
    ensures KeyAt(MatrixAddress(key).0, MatrixAddress(key).1) == Some(key)
  {
    match key
    case O => CellOfO();
    case P => CellOfP();
    case LeftBracket => CellOfLeftBracket();
    case RightBracket => CellOfRightBracket();
    case Backslash => CellOfBackslash();
    case Delete => CellOfDelete();
    case End => CellOfEnd();
    case PageDown => CellOfPageDown();
    case NumSeven => CellOfNumSeven();
    case NumEight => CellOfNumEight();
  }

  lemma KeyAtMatrixAddressGroup6(key: Key)
    requires key == NumNine || key == NumAddition || key == CapsLock || key == A || key == S || key == D || key == F || key == G || key == H || key == J
    ensures KeyAt(MatrixAddress(key).0, MatrixAddress(key).1) == Some(key)
  {
    match key
    case NumNine => CellOfNumNine();
    case NumAddition => CellOfNumAddition();
    case CapsLock => CellOfCapsLock();
    case A => CellOfA();
    case S => CellOfS();
    case D => CellOfD();
    case F => CellOfF();
    case G => CellOfG();
    case H => CellOfH();
    case J => CellOfJ();
  }

  lemma KeyAtMatrixAddressGroup7(key: Key)
    requires key == K || key == L || key == SemiColon || key == Apostrophe || key == ISO1 || key == Return || key == NumFour || key == NumFive || key == NumSix || key == LeftShift
    ensures KeyAt(MatrixAddress(key).0, MatrixAddress(key).1) == Some(key)
  {
    match key
    case K => CellOfK();
    case L => CellOfL();
    case SemiColon => CellOfSemiColon();
    case Apostrophe => CellOfApostrophe();
    case ISO1 => CellOfISO1();
    case Return => CellOfReturn();
    case NumFour => CellOfNumFour();
    case NumFive => CellOfNumFive();
    case NumSix => CellOfNumSix();
    case LeftShift => CellOfLeftShift();
  }

  lemma KeyAtMatrixAddressGroup8(key: Key)
    requires key == ISO2 || key == Z || key == X || key == C || key == V || key == B || key == N || key == M || key == Comma || key == Period
    ensures KeyAt(MatrixAddress(key).0, MatrixAddress(key).1) == Some(key)
  {
    match key
    case ISO2 => CellOfISO2();
    case Z => CellOfZ();
    case X => CellOfX();
    case C => CellOfC();
    case V => CellOfV();
    case B => CellOfB();
    case N => CellOfN();
    case M => CellOfM();
    case Comma => CellOfComma();
    case Period => CellOfPeriod();
  }

  lemma KeyAtMatrixAddressGroup9(key: Key)
    requires key == ForwardSlash || key == RightShift || key == UpArrow || key == NumOne || key == NumTwo || key == NumThree || key == NumReturn || key == LeftControl || key == LeftMod || key == LeftAlt
    ensures KeyAt(MatrixAddress(key).0, MatrixAddress(key).1) == Some(key)
  {
    match key
    case ForwardSlash => CellOfForwardSlash();
    case RightShift => CellOfRightShift();
    case UpArrow => CellOfUpArrow();
    case NumOne => CellOfNumOne();
    case NumTwo => CellOfNumTwo();
    case NumThree => CellOfNumThree();
    case NumReturn => CellOfNumReturn();
    case LeftControl => CellOfLeftControl();
    case LeftMod => CellOfLeftMod();
    case LeftAlt => CellOfLeftAlt();
  }

  lemma KeyAtMatrixAddressGroup10(key: Key)
    requires key == Space || key == RightAlt || key == RightMod || key == Fn || key == RightControl || key == LeftArrow || key == DownArrow || key == RightArrow || key == NumZero || key == NumDelete
    ensures KeyAt(MatrixAddress(key).0, MatrixAddress(key).1) == Some(key)
  {
    match key
    case Space => CellOfSpace();
    case RightAlt => CellOfRightAlt();
    case RightMod => CellOfRightMod();
    case Fn => CellOfFn();
    case RightControl => CellOfRightControl();
    case LeftArrow => CellOfLeftArrow();
    case DownArrow => CellOfDownArrow();
    case RightArrow => CellOfRightArrow();
    case NumZero => CellOfNumZero();
    case NumDelete => CellOfNumDelete();
  }

  lemma CellOfO() ensures KeyAt(MatrixAddress(O).0, MatrixAddress(O).1) == Some(O) {}
  lemma CellOfP() ensures KeyAt(MatrixAddress(P).0, MatrixAddress(P).1) == Some(P) {}
  lemma CellOfLeftBracket() ensures KeyAt(MatrixAddress(LeftBracket).0, MatrixAddress(LeftBracket).1) == Some(LeftBracket) {}
  lemma CellOfRightBracket() ensures KeyAt(MatrixAddress(RightBracket).0, MatrixAddress(RightBracket).1) == Some(RightBracket) {}
  lemma CellOfBackslash() ensures KeyAt(MatrixAddress(Backslash).0, MatrixAddress(Backslash).1) == Some(Backslash) {}
  lemma CellOfDelete() ensures KeyAt(MatrixAddress(Delete).0, MatrixAddress(Delete).1) == Some(Delete) {}
  lemma CellOfEnd() ensures KeyAt(MatrixAddress(End).0, MatrixAddress(End).1) == Some(End) {}
  lemma CellOfPageDown() ensures KeyAt(MatrixAddress(PageDown).0, MatrixAddress(PageDown).1) == Some(PageDown) {}
  lemma CellOfNumSeven() ensures KeyAt(MatrixAddress(NumSeven).0, MatrixAddress(NumSeven).1) == Some(NumSeven) {}
  lemma CellOfNumEight() ensures KeyAt(MatrixAddress(NumEight).0, MatrixAddress(NumEight).1) == Some(NumEight) {}
  lemma CellOfNumNine() ensures KeyAt(MatrixAddress(NumNine).0, MatrixAddress(NumNine).1) == Some(NumNine) {}
  lemma CellOfNumAddition() ensures KeyAt(MatrixAddress(NumAddition).0, MatrixAddress(NumAddition).1) == Some(NumAddition) {}
  lemma CellOfCapsLock() ensures KeyAt(MatrixAddress(CapsLock).0, MatrixAddress(CapsLock).1) == Some(CapsLock) {}
  lemma CellOfA() ensures KeyAt(MatrixAddress(A).0, MatrixAddress(A).1) == Some(A) {}
  lemma CellOfS() ensures KeyAt(MatrixAddress(S).0, MatrixAddress(S).1) == Some(S) {}
  lemma CellOfD() ensures KeyAt(MatrixAddress(D).0, MatrixAddress(D).1) == Some(D) {}
  lemma CellOfF() ensures KeyAt(MatrixAddress(F).0, MatrixAddress(F).1) == Some(F) {}
  lemma CellOfG() ensures KeyAt(MatrixAddress(G).0, MatrixAddress(G).1) == Some(G) {}
  lemma CellOfH() ensures KeyAt(MatrixAddress(H).0, MatrixAddress(H).1) == Some(H) {}
  lemma CellOfJ() ensures KeyAt(MatrixAddress(J).0, MatrixAddress(J).1) == Some(J) {}
  lemma CellOfK() ensures KeyAt(MatrixAddress(K).0, MatrixAddress(K).1) == Some(K) {}
  lemma CellOfL() ensures KeyAt(MatrixAddress(L).0, MatrixAddress(L).1) == Some(L) {}
  lemma CellOfSemiColon() ensures KeyAt(MatrixAddress(SemiColon).0, MatrixAddress(SemiColon).1) == Some(SemiColon) {}
  lemma CellOfApostrophe() ensures KeyAt(MatrixAddress(Apostrophe).0, MatrixAddress(Apostrophe).1) == Some(Apostrophe) {}
  lemma CellOfISO1() ensures KeyAt(MatrixAddress(ISO1).0, MatrixAddress(ISO1).1) == Some(ISO1) {}
  lemma CellOfReturn() ensures KeyAt(MatrixAddress(Return).0, MatrixAddress(Return).1) == Some(Return) {}
  lemma CellOfNumFour() ensures KeyAt(MatrixAddress(NumFour).0, MatrixAddress(NumFour).1) == Some(NumFour) {}
  lemma CellOfNumFive() ensures KeyAt(MatrixAddress(NumFive).0, MatrixAddress(NumFive).1) == Some(NumFive) {}
  lemma CellOfNumSix() ensures KeyAt(MatrixAddress(NumSix).0, MatrixAddress(NumSix).1) == Some(NumSix) {}
  lemma CellOfLeftShift() ensures KeyAt(MatrixAddress(LeftShift).0, MatrixAddress(LeftShift).1) == Some(LeftShift) {}
  lemma CellOfISO2() ensures KeyAt(MatrixAddress(ISO2).0, MatrixAddress(ISO2).1) == Some(ISO2) {}
  lemma CellOfZ() ensures KeyAt(MatrixAddress(Z).0, MatrixAddress(Z).1) == Some(Z) {}
  lemma CellOfX() ensures KeyAt(MatrixAddress(X).0, MatrixAddress(X).1) == Some(X) {}
  lemma CellOfC() ensures KeyAt(MatrixAddress(C).0, MatrixAddress(C).1) == Some(C) {}
  lemma CellOfV() ensures KeyAt(MatrixAddress(V).0, MatrixAddress(V).1) == Some(V) {}
  lemma CellOfB() ensures KeyAt(MatrixAddress(B).0, MatrixAddress(B).1) == Some(B) {}
  lemma CellOfN() ensures KeyAt(MatrixAddress(N).0, MatrixAddress(N).1) == Some(N) {}
  lemma CellOfM() ensures KeyAt(MatrixAddress(M).0, MatrixAddress(M).1) == Some(M) {}
  lemma CellOfComma() ensures KeyAt(MatrixAddress(Comma).0, MatrixAddress(Comma).1) == Some(Comma) {}
  lemma CellOfPeriod() ensures KeyAt(MatrixAddress(Period).0, MatrixAddress(Period).1) == Some(Period) {}
  lemma CellOfForwardSlash() ensures KeyAt(MatrixAddress(ForwardSlash).0, MatrixAddress(ForwardSlash).1) == Some(ForwardSlash) {}
  lemma CellOfRightShift() ensures KeyAt(MatrixAddress(RightShift).0, MatrixAddress(RightShift).1) == Some(RightShift) {}
  lemma CellOfUpArrow() ensures KeyAt(MatrixAddress(UpArrow).0, MatrixAddress(UpArrow).1) == Some(UpArrow) {}
  lemma CellOfNumOne() ensures KeyAt(MatrixAddress(NumOne).0, MatrixAddress(NumOne).1) == Some(NumOne) {}
  lemma CellOfNumTwo() ensures KeyAt(MatrixAddress(NumTwo).0, MatrixAddress(NumTwo).1) == Some(NumTwo) {}
  lemma CellOfNumThree() ensures KeyAt(MatrixAddress(NumThree).0, MatrixAddress(NumThree).1) == Some(NumThree) {}
  lemma CellOfNumReturn() ensures KeyAt(MatrixAddress(NumReturn).0, MatrixAddress(NumReturn).1) == Some(NumReturn) {}
  lemma CellOfLeftControl() ensures KeyAt(MatrixAddress(LeftControl).0, MatrixAddress(LeftControl).1) == Some(LeftControl) {}
  lemma CellOfLeftMod() ensures KeyAt(MatrixAddress(LeftMod).0, MatrixAddress(LeftMod).1) == Some(LeftMod) {}
  lemma CellOfLeftAlt() ensures KeyAt(MatrixAddress(LeftAlt).0, MatrixAddress(LeftAlt).1) == Some(LeftAlt) {}
  lemma CellOfSpace() ensures KeyAt(MatrixAddress(Space).0, MatrixAddress(Space).1) == Some(Space) {}
  lemma CellOfRightAlt() ensures KeyAt(MatrixAddress(RightAlt).0, MatrixAddress(RightAlt).1) == Some(RightAlt) {}
  lemma CellOfRightMod() ensures KeyAt(MatrixAddress(RightMod).0, MatrixAddress(RightMod).1) == Some(RightMod) {}
  lemma CellOfFn() ensures KeyAt(MatrixAddress(Fn).0, MatrixAddress(Fn).1) == Some(Fn) {}
  lemma CellOfRightControl() ensures KeyAt(MatrixAddress(RightControl).0, MatrixAddress(RightControl).1) == Some(RightControl) {}
  lemma CellOfLeftArrow() ensures KeyAt(MatrixAddress(LeftArrow).0, MatrixAddress(LeftArrow).1) == Some(LeftArrow) {}
  lemma CellOfDownArrow() ensures KeyAt(MatrixAddress(DownArrow).0, MatrixAddress(DownArrow).1) == Some(DownArrow) {}
  lemma CellOfRightArrow() ensures KeyAt(MatrixAddress(RightArrow).0, MatrixAddress(RightArrow).1) == Some(RightArrow) {}
  lemma CellOfNumZero() ensures KeyAt(MatrixAddress(NumZero).0, MatrixAddress(NumZero).1) == Some(NumZero) {}
  lemma CellOfNumDelete() ensures KeyAt(MatrixAddress(NumDelete).0, MatrixAddress(NumDelete).1) == Some(NumDelete) {}

  /** No two keys share a matrix cell. */
  lemma MatrixAddressInjective(k1: Key, k2: Key)
    requires MatrixAddress(k1) == MatrixAddress(k2)
    ensures k1 == k2
  {
    KeyAtMatrixAddress(k1);
    KeyAtMatrixAddress(k2);
  }

  /**
   * At a cell holding a key, the recorded scan index is missing exactly for
   * `Backslash` and `Apostrophe`, and otherwise decodes back to that key.
   */
  lemma CellScanIndex(row: int, column: int)
    requires KeyAt(row, column).Some?
    ensures ScanIndexAt(row, column).None? <==> KeyAt(row, column) == Some(Backslash) || KeyAt(row, column) == Some(Apostrophe)
    ensures ScanIndexAt(row, column).Some? ==> FromScanIndex(ScanIndexAt(row, column).value) == KeyAt(row, column)
  {
    match row
    case 0 => CellScanIndexRow0(column);
    case 1 => CellScanIndexRow1(column);
    case 2 => CellScanIndexRow2(column);
    case 3 => CellScanIndexRow3(column);
    case 4 => CellScanIndexRow4(column);
    case 5 => CellScanIndexRow5(column);
  }

  lemma CellScanIndexRow0(column: int)
    requires KeyAt(0, column).Some?
    ensures ScanIndexAt(0, column).None? <==> KeyAt(0, column) == Some(Backslash) || KeyAt(0, column) == Some(Apostrophe)
    ensures ScanIndexAt(0, column).Some? ==> FromScanIndex(ScanIndexAt(0, column).value) == KeyAt(0, column)
  {
  }

  lemma CellScanIndexRow1(column: int)
    requires KeyAt(1, column).Some?
    ensures ScanIndexAt(1, column).None? <==> KeyAt(1, column) == Some(Backslash) || KeyAt(1, column) == Some(Apostrophe)
    ensures ScanIndexAt(1, column).Some? ==> FromScanIndex(ScanIndexAt(1, column).value) == KeyAt(1, column)
  {
  }

  lemma CellScanIndexRow2(column: int)
    requires KeyAt(2, column).Some?
    ensures ScanIndexAt(2, column).None? <==> KeyAt(2, column) == Some(Backslash) || KeyAt(2, column) == Some(Apostrophe)
    ensures ScanIndexAt(2, column).Some? ==> FromScanIndex(ScanIndexAt(2, column).value) == KeyAt(2, column)
  {
  }

  lemma CellScanIndexRow3(column: int)
    requires KeyAt(3, column).Some?
    ensures ScanIndexAt(3, column).None? <==> KeyAt(3, column) == Some(Backslash) || KeyAt(3, column) == Some(Apostrophe)
    ensures ScanIndexAt(3, column).Some? ==> FromScanIndex(ScanIndexAt(3, column).value) == KeyAt(3, column)
  {
  }

  lemma CellScanIndexRow4(column: int)
    requires KeyAt(4, column).Some?
    ensures ScanIndexAt(4, column).None? <==> KeyAt(4, column) == Some(Backslash) || KeyAt(4, column) == Some(Apostrophe)
    ensures ScanIndexAt(4, column).Some? ==> FromScanIndex(ScanIndexAt(4, column).value) == KeyAt(4, column)
  {
  }

  lemma CellScanIndexRow5(column: int)
    requires KeyAt(5, column).Some?
    ensures ScanIndexAt(5, column).None? <==> KeyAt(5, column) == Some(Backslash) || KeyAt(5, column) == Some(Apostrophe)
    ensures ScanIndexAt(5, column).Some? ==> FromScanIndex(ScanIndexAt(5, column).value) == KeyAt(5, column)
  {
  }

  /**
   * Every key other than `Backslash` and `Apostrophe` has a scan index, and that
   * index decodes back to it.
   */
  lemma ScanIndexRoundTrip(key: Key)
    ensures ScanIndexOf(key).None? <==> key == Backslash || key == Apostrophe
    ensures ScanIndexOf(key).Some? ==> FromScanIndex(ScanIndexOf(key).value) == Some(key)
  {
    var (row, column) := MatrixAddress(key);
    KeyAtMatrixAddress(key);
    CellScanIndex(row, column);
    assert ScanIndexOf(key) == ScanIndexAt(row, column);
  }

  /** The keys the decode can produce are exactly those other than `Backslash` and `Apostrophe`. */
  lemma DecodedKeys(key: Key)
    ensures (exists index: byte :: FromScanIndex(index) == Some(key)) <==> key != Backslash && key != Apostrophe
  {
    ScanIndexRoundTrip(key);
    forall index: byte | FromScanIndex(index) == Some(key)
      ensures key != Backslash && key != Apostrophe
    {
      DecodableIndices(index);
    }
    if key != Backslash && key != Apostrophe {
      var index := ScanIndexOf(key).value;
      assert FromScanIndex(index) == Some(key);
    }
  }

  /** The shared indices as the table has them: 45 is `ISO1`, and 40 and 55 are both `I`. */
  lemma SharedScanIndices()
    ensures FromScanIndex(45) == Some(ISO1)
    ensures FromScanIndex(40) == Some(I) && FromScanIndex(55) == Some(I)
  {
  }

  /** The numpad divide key shows a backslash, the same label as the backslash key. */
  lemma DivideLabel()
    ensures Label(NumDivide) == Label(Backslash) == "\\"
  {
  }
}
