/** The confidence badge of the suspected-root-cause card. */
module RootCause {
  import Types
  import MockIncidents

  datatype ConfidenceLevel = High | Medium | Low

  /** `getConfidenceLevel`: thresholds at 85 and 70. */
  function GetConfidenceLevel(confidence: int): ConfidenceLevel {
    if confidence >= 85 then High
    else if confidence >= 70 then Medium
    else Low
  }

  function LevelRank(l: ConfidenceLevel): nat {
    match l
    case Low => 0
    case Medium => 1
    case High => 2
  }

  /** Each level holds exactly on its band of confidences. */
  lemma ConfidenceLevelBands(confidence: int)
    ensures GetConfidenceLevel(confidence) == High <==> 85 <= confidence
    ensures GetConfidenceLevel(confidence) == Medium <==> 70 <= confidence < 85
    ensures GetConfidenceLevel(confidence) == Low <==> confidence < 70
  {
  }

  /** A higher confidence never gets a lower level. */
  lemma ConfidenceLevelMonotone(a: int, b: int)
    requires a <= b
    ensures LevelRank(GetConfidenceLevel(a)) <= LevelRank(GetConfidenceLevel(b))
  {
  }

  /**
   * Whatever the jitter, a critical incident's confidence is labelled High, a low-severity one
   * Low, and a medium one never High.
   */
  lemma SeverityDecidesLevel(severity: Types.IncidentSeverity, draw: real)
    requires 0.0 <= draw < 1.0
    ensures severity == Types.Critical ==> GetConfidenceLevel(MockIncidents.GetIncidentConfidence(severity, draw)) == High
    ensures severity == Types.Low ==> GetConfidenceLevel(MockIncidents.GetIncidentConfidence(severity, draw)) == Low
    ensures severity == Types.Medium ==> GetConfidenceLevel(MockIncidents.GetIncidentConfidence(severity, draw)) != High
  {
  }
}
