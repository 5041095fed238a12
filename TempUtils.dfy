/** Temperature conversions and roast constants (utils/temp_utils.py).
    Temperatures are exact reals, so the conversions are exact inverses. */
module TempUtils {

  /** Names of the roast levels drawn as reference lines. */
  const RoastStages: seq<string> := ["City", "City+", "Full City", "Full City+", "Vienna"]

  /** The bean temperature (degrees Fahrenheit) at which each roast level is reached. */
  const RoastTemps: seq<int> := [422, 432, 441, 450, 463]

  /** The milestones a user can mark while recording. */
  const RoastEvents: seq<string> := ["1st Crack Start", "2nd Crack Start"]

  /** Celsius to Fahrenheit. */
  function CToF(temp: real): (f: real)
    ensures (f - 32.0) * 5.0 / 9.0 == temp
  {
    temp * 9.0 / 5.0 + 32.0
  }

  /** Fahrenheit to Celsius. */
  function FToC(temp: real): (c: real)
    ensures c * 9.0 / 5.0 + 32.0 == temp
  {
    (temp - 32.0) * 5.0 / 9.0
  }

  lemma CToFThenFToC(t: real)
    ensures FToC(CToF(t)) == t
  {
  }

  lemma FToCThenCToF(t: real)
    ensures CToF(FToC(t)) == t
  {
  }

  /** Reference readings: room temperature and the boiling point of water
      from Celsius, and the boiling and freezing points back from
      Fahrenheit. */
  lemma ConversionFixedPoints()
    ensures CToF(20.0) == 68.0 && CToF(100.0) == 212.0
    ensures FToC(212.0) == 100.0 && FToC(32.0) == 0.0
  {
  }

  lemma CToFStrictlyIncreasing(a: real, b: real)
    requires a < b
    ensures CToF(a) < CToF(b)
  {
  }

  lemma FToCStrictlyIncreasing(a: real, b: real)
    requires a < b
    ensures FToC(a) < FToC(b)
  {
  }

  /** Every roast stage is paired with a temperature when the two lists are zipped. */
  lemma StagesPairWithTemps()
    ensures |RoastStages| == |RoastTemps| == 5
  {
  }

  /** The roast levels are listed from lightest (coolest) to darkest (hottest). */
  lemma RoastTempsStrictlyIncreasing()
    ensures forall i, j :: 0 <= i < j < |RoastTemps| ==> RoastTemps[i] < RoastTemps[j]
  {
  }

  lemma TwoRoastEvents()
    ensures |RoastEvents| == 2
  {
  }
}
