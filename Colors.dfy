/**
 * Per-channel display colour: either one base colour or a lookup table of
 * colours, with opacity, display range and gamma. Components are exact reals.
 */
module Colors {

  datatype Color = Color(red: real, green: real, blue: real, alpha: real)

  datatype ColorInfo = ColorInfo(
    isBaseColorMode: bool,
    baseColor: Color,
    colorTable: seq<Color>,
    opacity: real,
    rangeMin: real,
    rangeMax: real,
    gammaCorrection: real)

  /** The primary colour (red, green, blue in turn) of channel c in the C test program. */
  predicate IsPrimary(color: Color, c: nat)
  {
    color.red == (if c % 3 == 0 then 1.0 else 0.0) &&
    color.green == (if c % 3 == 1 then 1.0 else 0.0) &&
    color.blue == (if c % 3 == 2 then 1.0 else 0.0) &&
    color.alpha == 1.0
  }

  /**
   * `get_color_infos`: one entry per channel, each an opaque base colour
   * cycling red, green, blue, with no table, range [0, 255], gamma 1, opacity 0.
   */
  method GetColorInfos(numColorInfos: nat) returns (infos: array<ColorInfo>)
    ensures infos.Length == numColorInfos
    ensures forall c :: 0 <= c < numColorInfos ==>
      infos[c].isBaseColorMode && IsPrimary(infos[c].baseColor, c) && infos[c].colorTable == [] &&
      infos[c].opacity == 0.0 && infos[c].rangeMin == 0.0 && infos[c].rangeMax == 255.0 &&
      infos[c].gammaCorrection == 1.0
  {
    var blank := ColorInfo(false, Color(0.0, 0.0, 0.0, 0.0), [], 0.0, 0.0, 0.0, 0.0);
    infos := new ColorInfo[numColorInfos](_ => blank);
    for c := 0 to numColorInfos
      invariant forall j :: 0 <= j < c ==>
        infos[j].isBaseColorMode && IsPrimary(infos[j].baseColor, j) && infos[j].colorTable == [] &&
        infos[j].opacity == 0.0 && infos[j].rangeMin == 0.0 && infos[j].rangeMax == 255.0 &&
        infos[j].gammaCorrection == 1.0
    {
      var color := Color(if c % 3 == 0 then 1.0 else 0.0,
                         if c % 3 == 1 then 1.0 else 0.0,
                         if c % 3 == 2 then 1.0 else 0.0,
                         1.0);
      infos[c] := ColorInfo(true, color, [], 0.0, 0.0, 255.0, 1.0);
    }
  }

  /** `ColorInfo.set_base_color`: base-colour mode with the given colour. */
  function SetBaseColor(info: ColorInfo, color: Color): (r: ColorInfo)
    ensures r.isBaseColorMode && r.baseColor == color
    ensures r.colorTable == info.colorTable && r.opacity == info.opacity
    ensures r.rangeMin == info.rangeMin && r.rangeMax == info.rangeMax && r.gammaCorrection == info.gammaCorrection
  {
    info.(isBaseColorMode := true, baseColor := color)
  }

  /** `ColorInfo.set_color_table`: table mode, the table kept entry for entry. */
  function SetColorTable(info: ColorInfo, table: seq<Color>): (r: ColorInfo)
    ensures !r.isBaseColorMode && |r.colorTable| == |table|
    ensures forall i :: 0 <= i < |table| ==> r.colorTable[i] == table[i]
    ensures r.baseColor == info.baseColor && r.opacity == info.opacity
    ensures r.rangeMin == info.rangeMin && r.rangeMax == info.rangeMax && r.gammaCorrection == info.gammaCorrection
  {
    info.(isBaseColorMode := false, colorTable := table)
  }

  /** Setting one representation after the other leaves only the last one active. */
  lemma LastSettingWins(info: ColorInfo, color: Color, table: seq<Color>)
    ensures !SetColorTable(SetBaseColor(info, color), table).isBaseColorMode
    ensures SetBaseColor(SetColorTable(info, table), color).isBaseColorMode
    ensures SetColorTable(SetBaseColor(info, color), table).colorTable == table
  {
  }

  /** The six-entry table the example program gives channel 2. */
  const ExampleColorTable: seq<Color> :=
    [Color(0.0, 1.0, 1.0, 1.0), Color(1.0, 0.0, 1.0, 1.0), Color(1.0, 1.0, 0.0, 1.0),
     Color(1.0, 1.0, 1.0, 1.0), Color(0.0, 0.0, 0.0, 1.0), Color(1.0, 0.0, 0.0, 1.0)]

  /**
   * The colour list of the example program: one entry per channel, channel 1
   * green, channel 2 the six-entry table, every other channel left as
   * constructed. The program indexes channels 1 and 2, so it needs three.
   */
  function ExampleColorInfos(default: ColorInfo, numChannels: nat): (infos: seq<ColorInfo>)
    requires numChannels >= 3
    ensures |infos| == numChannels
    ensures infos[0] == default
    ensures forall c :: 3 <= c < numChannels ==> infos[c] == default
    ensures infos[1].isBaseColorMode && infos[1].baseColor == Color(0.0, 1.0, 0.0, 1.0)
    ensures infos[1].colorTable == default.colorTable && infos[1].opacity == default.opacity
    ensures infos[1].rangeMin == default.rangeMin && infos[1].rangeMax == default.rangeMax
    ensures infos[1].gammaCorrection == default.gammaCorrection
    ensures !infos[2].isBaseColorMode && infos[2].colorTable == ExampleColorTable
    ensures infos[2].baseColor == default.baseColor && infos[2].opacity == default.opacity
    ensures infos[2].rangeMin == default.rangeMin && infos[2].rangeMax == default.rangeMax
    ensures infos[2].gammaCorrection == default.gammaCorrection
  {
    var infos := seq(numChannels, _ => default);
    infos[1 := SetBaseColor(infos[1], Color(0.0, 1.0, 0.0, 1.0))][2 := SetColorTable(infos[2], ExampleColorTable)]
  }
}
