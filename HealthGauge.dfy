/** The colour bands of `getColor` in src/components/HealthGauge.tsx, on an integer percentage. */
module HealthGauge {
  import opened Styles

  function GaugeColor(percentage: int): (t: Tone)
    ensures t == Success <==> percentage >= 80
    ensures t == Warning <==> 50 <= percentage < 80
    ensures t == Danger <==> percentage < 50
  {
    if percentage >= 80 then Success
    else if percentage >= 50 then Warning
    else Danger
  }

  /** A higher percentage never gets a worse colour. */
  lemma GaugeColorMonotone(p1: int, p2: int)
    requires p1 <= p2
    ensures Severity(GaugeColor(p2)) <= Severity(GaugeColor(p1))
  {
  }
}
