/** Vocabulary shared by the player's modules: bytes, optional values, the
    Rust integer operations the GUI arithmetic relies on, and the screens. */
module Common {

  /** One byte of an OS string or a C string. */
  newtype byte = x: int | 0 <= x < 256

  type Bytes = seq<byte>

  datatype Option<+T> = None | Some(value: T) {
    /** Rust's `unwrap_or`. */
    function GetOr(default: T): T {
      if Some? then value else default
    }
  }

  /** The bytes of an ASCII string literal. */
  function Ascii(s: string): (b: Bytes)
    requires forall i | 0 <= i < |s| :: s[i] as int < 128
    ensures |b| == |s|
    ensures forall i | 0 <= i < |s| :: b[i] as int == s[i] as int
  {
    seq(|s|, i requires 0 <= i < |s| => s[i] as int as byte)
  }

  /** Rust's `a / 2` on a signed integer: the quotient is truncated toward
      zero, so for a negative `a` it differs from Dafny's `a / 2`. */
  function TruncHalf(a: int): (q: int)
    ensures a >= 0 ==> q + q == a || q + q + 1 == a
    ensures a < 0 ==> q + q == a || q + q - 1 == a
  {
    if a >= 0 then a / 2 else -((-a) / 2)
  }

  function Max(a: int, b: int): int {
    if a >= b then a else b
  }

  /** The screens of the application (`GuiScreen`). */
  datatype GuiScreen =
    | Player
    | Lyrics
    | FileSelectAddFolder
    | FileSelectAddFile
    | FileSelectOpenFolder
    | FileSelectOpenFile
    | FileSelectSaveFile

  /** What a screen asks the event loop to do after a frame. */
  datatype Action = NoAction | ExitProgram | SwitchGuiScreen(screen: GuiScreen)
}
