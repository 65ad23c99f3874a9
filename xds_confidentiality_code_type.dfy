/**
 * `XdsConfidentialityCodeType`: the closed set of confidentiality codes a
 * document entry may carry. The constructor is private and both properties
 * are get-only, so exactly the three published values exist; the model makes
 * that closure explicit as a three-valued datatype whose `Code` and `Scheme`
 * give the arguments each value was constructed with.
 */
module XdsConfidentiality {

  /** The coding scheme shared by every confidentiality code. */
  const ConfidentialityScheme: string := "Connect-a-thon confidentialityCodes"

  /** The OID arc under which all three codes are registered. */
  const CodeArc: string := "1.3.6.1.4.1.21367.2006.7."

  datatype XdsConfidentialityCodeType = EmergencyOnly | Normal | Restricted
  {
    /** The code the value was constructed with: one of three OIDs under the same arc. */
    function Code(): (c: string)
      ensures |c| == |CodeArc| + 3 && c[..|CodeArc|] == CodeArc
    {
      match this
      case EmergencyOnly => "1.3.6.1.4.1.21367.2006.7.110"
      case Normal => "1.3.6.1.4.1.21367.2006.7.107"
      case Restricted => "1.3.6.1.4.1.21367.2006.7.109"
    }

    /** The scheme the value was constructed with; each value is given the same one. */
    function Scheme(): (s: string)
      ensures s == ConfidentialityScheme
    {
      match this
      case EmergencyOnly => "Connect-a-thon confidentialityCodes"
      case Normal => "Connect-a-thon confidentialityCodes"
      case Restricted => "Connect-a-thon confidentialityCodes"
    }
  }

  /** The published codes of the three values. */
  lemma PublishedCodes()
    ensures Normal.Code() == "1.3.6.1.4.1.21367.2006.7.107"
    ensures Restricted.Code() == "1.3.6.1.4.1.21367.2006.7.109"
    ensures EmergencyOnly.Code() == "1.3.6.1.4.1.21367.2006.7.110"
  {
  }

  /** All three values share one scheme. */
  lemma SharedScheme(a: XdsConfidentialityCodeType, b: XdsConfidentialityCodeType)
    ensures a.Scheme() == b.Scheme() == "Connect-a-thon confidentialityCodes"
  {
  }

  /** Distinct values carry distinct codes, so a code identifies its value. */
  lemma CodesDistinct(a: XdsConfidentialityCodeType, b: XdsConfidentialityCodeType)
    ensures a.Code() == b.Code() <==> a == b
  {
    if a != b {
      assert a.Code()[27..] != b.Code()[27..];
    }
  }
}
