/** The display side of the terminal as the rest of the model sees it: the
    WBGT colour table (background and text colour per level 0..5, after the
    Japanese Ministry of the Environment's scheme) and the two drawing calls,
    recorded as events rather than rendered. */
module Display {

  import opened Wrappers

  type Rgb = int

  const WHITE: Rgb := 0xFFFFFF
  const BLACK: Rgb := 0x000000
  const BLUE: Rgb := 0x228CFF
  const LIGHT_BLUE: Rgb := 0x9FD2FF
  const YELLOW: Rgb := 0xFAF500
  const ORANGE: Rgb := 0xFF9602
  const RED: Rgb := 0xFF2900

  datatype Appearance = Appearance(background: Rgb, text: Rgb)

  /** `WBGT_COLOR`, indexed by level 0..5: white, blue, light blue, yellow,
      orange and red backgrounds. */
  const WBGT_COLOR: seq<Appearance> := [
    Appearance(WHITE, BLACK),
    Appearance(BLUE, WHITE),
    Appearance(LIGHT_BLUE, BLACK),
    Appearance(YELLOW, BLACK),
    Appearance(ORANGE, BLACK),
    Appearance(RED, WHITE)
  ]

  /** `WBGT_COLOR[level]` with Python's list indexing: negative indices count
      from the end, and anything outside -6..5 raises IndexError (`None`). */
  function ColorFor(level: int): (r: Option<Appearance>)
    ensures r.Some? <==> -|WBGT_COLOR| <= level < |WBGT_COLOR|
  {
    if 0 <= level < |WBGT_COLOR| then Some(WBGT_COLOR[level])
    else if -|WBGT_COLOR| <= level < 0 then Some(WBGT_COLOR[|WBGT_COLOR| + level])
    else None
  }

  /** Every level's colours come from the table, and its text is legible:
      white exactly on the two dark backgrounds (blue and red, levels 1 and
      5), black on all the others. */
  lemma ColorContrast(level: int)
    requires ColorFor(level).Some?
    ensures ColorFor(level).value in WBGT_COLOR
    ensures ColorFor(level).value.text == WHITE <==> ColorFor(level).value.background in {BLUE, RED}
    ensures ColorFor(level).value.text == WHITE || ColorFor(level).value.text == BLACK
    ensures 0 <= level ==> (ColorFor(level).value.text == WHITE <==> level == 1 || level == 5)
  {
  }

  /** One call of `disp_1line(level, text)` or `disp_4line(level, lines)`:
      a full repaint in the colours of `level`. */
  datatype Draw =
    | OneLine(level: int, text: string)
    | FourLines(level: int, lines: seq<string>)
}
