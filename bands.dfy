/** The temperature bands the flask display chooses between, and the label each shows. */
module Bands {

  datatype Band = Ice | Cool | RoomTemp | Warm | Hot

  /** The interval of temperatures (degrees Celsius) that each band covers. Every band
      boundary belongs to the lower band. */
  predicate InBand(t: real, b: Band) {
    match b
    case Ice => t < 0.0
    case Cool => 0.0 <= t <= 20.0
    case RoomTemp => 20.0 < t <= 25.0
    case Warm => 25.0 < t <= 40.0
    case Hot => 40.0 < t
  }

  /** The bands do not overlap: a temperature lies in at most one of them. */
  lemma BandsDisjoint(t: real, b1: Band, b2: Band)
    requires InBand(t, b1) && InBand(t, b2)
    ensures b1 == b2
  {
  }

  /** The boundary and sample temperatures: 0 and 20 are COOL, 25 is ROOM TEMP, 40 is
      WARM, and just above 20 and 40 the next band starts. */
  lemma BandExamples()
    ensures InBand(-5.0, Ice)
    ensures InBand(0.0, Cool) && InBand(20.0, Cool)
    ensures InBand(20.0001, RoomTemp) && InBand(25.0, RoomTemp)
    ensures InBand(40.0, Warm)
    ensures InBand(40.0001, Hot)
  {
  }

  /** The word the flask picture shows for a band. */
  function Label(b: Band): (s: string)
    ensures |s| > 0
  {
    match b
    case Ice => "ICE"
    case Cool => "COOL"
    case RoomTemp => "ROOM TEMP"
    case Warm => "WARM"
    case Hot => "HOT!"
  }

  /** Different bands show different labels, so the label identifies the band. */
  lemma LabelsDistinct(b1: Band, b2: Band)
    requires b1 != b2
    ensures Label(b1) != Label(b2)
  {
    // the five labels start with five different letters
    assert Label(b1)[0] != Label(b2)[0];
  }
}
