/** Scalar unit conversions: each is multiplication by a constant, and each reciprocal constant is
    defined as one over its partner, so over the reals every pair is mutually inverse. */
module Units {
  const FtToMetres: real := 0.3048
  const MetresToFeetFactor: real := 1.0 / FtToMetres
  const FtToMm: real := 304.8
  const MmToFt: real := 1.0 / FtToMm
  const InToMm: real := 25.4
  const MmToIn: real := 1.0 / InToMm
  const CfsToCms: real := 0.028316846592
  const CmsToCfs: real := 1.0 / CfsToCms
  const FtsToMs: real := 0.3048
  const MsToFts: real := 1.0 / FtsToMs

  function FeetToMetres(x: real): real { x * FtToMetres }
  function MetresToFeet(x: real): real { x * MetresToFeetFactor }
  function FeetToMillimetres(x: real): real { x * FtToMm }
  function MillimetresToFeet(x: real): real { x * MmToFt }
  function InchesToMillimetres(x: real): real { x * InToMm }
  function MillimetresToInches(x: real): real { x * MmToIn }
  function CfsToCmsValue(x: real): real { x * CfsToCms }
  function CmsToCfsValue(x: real): real { x * CmsToCfs }
  function FeetPerSecondToMetresPerSecond(x: real): real { x * FtsToMs }
  function MetresPerSecondToFeetPerSecond(x: real): real { x * MsToFts }

  /** Each conversion undoes its partner, in both orders. */
  lemma ConversionsInverse(x: real)
    ensures MetresToFeet(FeetToMetres(x)) == x && FeetToMetres(MetresToFeet(x)) == x
    ensures MillimetresToFeet(FeetToMillimetres(x)) == x && FeetToMillimetres(MillimetresToFeet(x)) == x
    ensures MillimetresToInches(InchesToMillimetres(x)) == x && InchesToMillimetres(MillimetresToInches(x)) == x
    ensures CmsToCfsValue(CfsToCmsValue(x)) == x && CfsToCmsValue(CmsToCfsValue(x)) == x
    ensures MetresPerSecondToFeetPerSecond(FeetPerSecondToMetresPerSecond(x)) == x
    ensures FeetPerSecondToMetresPerSecond(MetresPerSecondToFeetPerSecond(x)) == x
  {
  }

  /** Every conversion fixes zero and is strictly increasing. */
  lemma ConversionsMonotone(x: real, y: real)
    requires x < y
    ensures FeetToMetres(x) < FeetToMetres(y) && MetresToFeet(x) < MetresToFeet(y)
    ensures FeetToMillimetres(x) < FeetToMillimetres(y) && MillimetresToFeet(x) < MillimetresToFeet(y)
    ensures InchesToMillimetres(x) < InchesToMillimetres(y) && MillimetresToInches(x) < MillimetresToInches(y)
    ensures CfsToCmsValue(x) < CfsToCmsValue(y) && CmsToCfsValue(x) < CmsToCfsValue(y)
    ensures FeetPerSecondToMetresPerSecond(x) < FeetPerSecondToMetresPerSecond(y)
    ensures MetresPerSecondToFeetPerSecond(x) < MetresPerSecondToFeetPerSecond(y)
    ensures FeetToMetres(0.0) == 0.0 && MetresToFeet(0.0) == 0.0 && CfsToCmsValue(0.0) == 0.0
    ensures CmsToCfsValue(0.0) == 0.0 && FeetToMillimetres(0.0) == 0.0 && MillimetresToFeet(0.0) == 0.0
    ensures InchesToMillimetres(0.0) == 0.0 && MillimetresToInches(0.0) == 0.0
    ensures FeetPerSecondToMetresPerSecond(0.0) == 0.0 && MetresPerSecondToFeetPerSecond(0.0) == 0.0
  {
  }
}
