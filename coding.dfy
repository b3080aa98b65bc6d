/**
 * The coding effect: the whole strip shows the colour of the editor's current
 * mode. The editor session is outside the model; the mode string it reports
 * is an input of `Update`.
 */
module Coding {
  import opened Led

  datatype Mode = Normal | Insert | Visual | Command

  /** The mode names that are not Command; the comparison is case-sensitive. */
  const NamedModes: set<string> := {"n", "i", "v", "V"}

  /** Maps the editor's mode string to a mode; everything unrecognised is Command. */
  function ParseMode(s: string): (m: Mode)
    ensures m == Normal <==> s == "n"
    ensures m == Insert <==> s == "i"
    ensures m == Visual <==> s == "v" || s == "V"
    ensures m == Command <==> s !in NamedModes
  {
    if s == "n" then Normal
    else if s == "i" then Insert
    else if s == "v" then Visual
    else if s == "V" then Visual
    else if s == "c" then Command
    else Command
  }

  /** The colour each mode lights the strip with; no two modes share one. */
  function ModeColor(m: Mode): (c: Color)
    ensures c == Color(0, 0, 255) <==> m == Normal
    ensures c == Color(0, 255, 0) <==> m == Insert
    ensures c == Color(100, 0, 255) <==> m == Visual
    ensures c == Color(255, 0, 0) <==> m == Command
  {
    match m
    case Normal => Color(0, 0, 255)
    case Insert => Color(0, 255, 0)
    case Visual => Color(100, 0, 255)
    case Command => Color(255, 0, 0)
  }

  /** Different modes light the strip differently, so the colour tells the mode. */
  lemma ModeColorsDistinct(m1: Mode, m2: Mode)
    ensures ModeColor(m1) == ModeColor(m2) <==> m1 == m2
  {
  }

  /** The frame shown while the editor reports `mode`. */
  function ModeFrame(mode: string): (f: LedData)
    ensures IsFrame(f) && Uniform(f)
    ensures forall i :: 0 <= i < |f| ==> f[i] == ModeColor(ParseMode(mode))
  {
    Fill(ModeColor(ParseMode(mode)))
  }

  class CodingEffect {
    constructor () {}

    method Update(mode: string) returns (r: Result<LedData, EffectError>)
      ensures r == Ok(ModeFrame(mode))
    {
      var m := ParseMode(mode);
      var color := ModeColor(m);
      r := Ok(Fill(color));
    }
  }
}
