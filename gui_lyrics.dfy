/** The size of the lyrics box: as wide as the widest line, and a fixed
    line step per line plus 6 pixels of padding above and below. Text width
    comes from the font's `measure_text`, which is a parameter here. */
module GuiLyrics {
  import opened Common

  /** The position of the first line feed in `s`, if any. */
  function FirstNewline(s: string): (r: Option<nat>)
    ensures r.Some? ==> r.value < |s| && s[r.value] == '\n'
    ensures r.Some? ==> forall j | 0 <= j < r.value :: s[j] != '\n'
    ensures r.None? ==> forall j | 0 <= j < |s| :: s[j] != '\n'
    decreases |s|
  {
    if |s| == 0 then None
    else if s[0] == '\n' then Some(0)
    else match FirstNewline(s[1..])
      case None => None
      case Some(k) => Some(k + 1)
  }

  /** A line ended by `\r\n` loses its carriage return too. */
  function StripCr(line: string): string {
    if |line| > 0 && line[|line| - 1] == '\r' then line[..|line| - 1] else line
  }

  /** `str::lines`: the text split at line feeds, `\r\n` counting as one
      line ending; a final line ending does not start another line, and the
      empty text has no lines. */
  function Lines(text: string): (ls: seq<string>)
    ensures forall i | 0 <= i < |ls| :: forall j | 0 <= j < |ls[i]| :: ls[i][j] != '\n'
    ensures text == [] <==> ls == []
    decreases |text|
  {
    if text == [] then []
    else match FirstNewline(text)
      case None => [text]
      case Some(k) => [StripCr(text[..k])] + Lines(text[k + 1..])
  }

  /** The number of line feeds in `s`. */
  function NewlineCount(s: string): nat
    decreases |s|
  {
    if s == [] then 0 else (if s[0] == '\n' then 1 else 0) + NewlineCount(s[1..])
  }

  /** Up to the first line feed, the text holds exactly one. */
  lemma {:induction false} CountThroughFirstNewline(s: string, k: nat)
    requires k < |s| && s[k] == '\n'
    requires forall j | 0 <= j < k :: s[j] != '\n'
    ensures NewlineCount(s) == 1 + NewlineCount(s[k + 1..])
    decreases k
  {
    if k > 0 {
      CountThroughFirstNewline(s[1..], k - 1);
      assert s[1..][k..] == s[k + 1..];
    }
  }

  lemma {:induction false} NoNewlineCountsZero(s: string)
    requires forall j | 0 <= j < |s| :: s[j] != '\n'
    ensures NewlineCount(s) == 0
    decreases |s|
  {
    if s != [] {
      NoNewlineCountsZero(s[1..]);
    }
  }

  /** There is one line per line feed, plus one for text after the last. */
  lemma {:induction false} LinesCount(text: string)
    ensures |Lines(text)| == NewlineCount(text) + (if text != [] && text[|text| - 1] != '\n' then 1 else 0)
    decreases |text|
  {
    if text != [] {
      match FirstNewline(text)
      case None =>
        NoNewlineCountsZero(text);
      case Some(k) =>
        var rest := text[k + 1..];
        CountThroughFirstNewline(text, k);
        LinesCount(rest);
        if rest != [] {
          assert rest[|rest| - 1] == text[|text| - 1];
        }
    }
  }

  /** The widest of the lines, and never below 0. */
  function Widest(lines: seq<string>, fontSize: int, measure: (string, int) -> int): (w: int)
    ensures w >= 0
    decreases |lines|
  {
    if lines == [] then 0
    else Max(Widest(lines[..|lines| - 1], fontSize, measure), measure(lines[|lines| - 1], fontSize))
  }

  /** `Widest` is the maximum: at least every line's width, and the width
      of some line unless it is 0. */
  lemma {:induction false} WidestIsMaximum(lines: seq<string>, fontSize: int, measure: (string, int) -> int)
    ensures forall i | 0 <= i < |lines| :: Widest(lines, fontSize, measure) >= measure(lines[i], fontSize)
    ensures Widest(lines, fontSize, measure) == 0 ||
      exists i | 0 <= i < |lines| :: Widest(lines, fontSize, measure) == measure(lines[i], fontSize)
    decreases |lines|
  {
    if lines != [] {
      var init := lines[..|lines| - 1];
      WidestIsMaximum(init, fontSize, measure);
      assert forall i | 0 <= i < |init| :: init[i] == lines[i];
      if Widest(lines, fontSize, measure) != 0 && Widest(lines, fontSize, measure) == Widest(init, fontSize, measure) {
        var i :| 0 <= i < |init| && Widest(init, fontSize, measure) == measure(init[i], fontSize);
        assert lines[i] == init[i];
      }
    }
  }

  /** Each line adds the font size and half of it (rounded toward zero),
      on top of 12 pixels of padding. */
  function BoxHeight(lineCount: nat, fontSize: int): (h: int)
    ensures lineCount == 0 ==> h == 12
    ensures fontSize >= 0 ==> h >= 12 + lineCount * fontSize
  {
    12 + lineCount * (fontSize + TruncHalf(fontSize))
  }

  /** At the font size of 10 the box grows by 15 pixels per line, the step
      the lines are drawn at. */
  lemma HeightAtFontSize10(text: string)
    ensures BoxHeight(|Lines(text)|, 10) == 12 + 15 * |Lines(text)|
  {
  }

  /** `get_dimensions`: the width and height of the lyrics box. */
  method GetDimensions(text: string, fontSize: int, measure: (string, int) -> int) returns (w: int, h: int)
    ensures w == Widest(Lines(text), fontSize, measure)
    ensures h == BoxHeight(|Lines(text)|, fontSize)
    ensures text == [] ==> w == 0 && h == 12
    ensures forall i | 0 <= i < |Lines(text)| :: w >= measure(Lines(text)[i], fontSize)
    ensures w == 0 || exists i | 0 <= i < |Lines(text)| :: w == measure(Lines(text)[i], fontSize)
  {
    w := 0;
    h := 12;
    var lines := Lines(text);
    for i := 0 to |lines|
      invariant w == Widest(lines[..i], fontSize, measure)
      invariant h == BoxHeight(i, fontSize)
    {
      assert lines[..i + 1][..i] == lines[..i];
      w := Max(w, measure(lines[i], fontSize));
      h := h + fontSize;
      h := h + TruncHalf(fontSize);
    }
    assert lines[..|lines|] == lines;
    WidestIsMaximum(lines, fontSize, measure);
  }
}
