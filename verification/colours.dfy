/** `get_ksi_color`: the line colour of a segment from its KSI count. */
module Colours {
  import opened Filters

  datatype Colour = Yellow | Orange | Red

  /** Yellow for 1 to 4, orange for 5 to 7, red for everything else: every
      count of 8 or more, and also 0 and negative counts, which lie in no
      bucket. */
  function KsiColour(ksi: int): (c: Colour)
    ensures c == Yellow <==> InBucket(Ksi1To4, ksi)
    ensures c == Orange <==> InBucket(Ksi5To7, ksi)
    ensures c == Red <==> InBucket(Ksi8Plus, ksi) || ksi < LowMin
  {
    if 1 <= ksi <= 4 then Yellow
    else if 5 <= ksi <= 7 then Orange
    else Red
  }
}
