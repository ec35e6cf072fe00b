/** backend/app/quality/trust.py */
module Trust {
  import opened Basics
  import opened Events

  datatype TrustStatus = Trusted | Untrusted | Unassessable | Conflicted | Invalidated

  datatype Policy = Policy(
    allowedQuality: set<string>, confidenceRequired: bool, minConfidence: Option<real>,
    requiresValidDevice: bool, mediaRequired: bool)

  const DEFAULT_POLICY := Policy({"good"}, false, None, false, false)

  datatype TrustResult = TrustResult(status: TrustStatus, reasons: seq<string>)

  /** The reasons collected against an observation that is neither unassessable, invalidated nor conflicted. */
  function Shortcomings(o: Inspection, p: Policy, deviceValid: bool): seq<string>
  {
    (if o.quality !in p.allowedQuality then ["OBSERVATION_QUALITY_NOT_ALLOWED"] else []) +
    (if p.confidenceRequired && o.confidence.None? then ["CONFIDENCE_REQUIRED"] else []) +
    (if p.minConfidence.Some? && (o.confidence.None? || o.confidence.value < p.minConfidence.value)
     then ["CONFIDENCE_BELOW_THRESHOLD"] else []) +
    (if p.requiresValidDevice && !deviceValid then ["DEVICE_VALIDITY_NOT_CONFIRMED"] else []) +
    (if p.mediaRequired && o.evidenceRefs == [] then ["MEDIA_REQUIRED"] else [])
  }

  function EvaluateTrust(o: Inspection, p: Policy, deviceValid: bool, invalidated: bool, conflicted: bool): TrustResult
  {
    if o.result.ImpossibleToAssess? then TrustResult(Unassessable, ["INSPECTION_IMPOSSIBLE_TO_ASSESS"])
    else if invalidated then TrustResult(Invalidated, ["CONTROL_DEVICE_INVALIDATED"])
    else if conflicted then TrustResult(Conflicted, ["EQUIVALENT_OBSERVATIONS_CONFLICT"])
    else
      var reasons := Shortcomings(o, p, deviceValid);
      if reasons != [] then TrustResult(Untrusted, reasons) else TrustResult(Trusted, [])
  }

  /** Trust is granted exactly when no ground against the observation holds. */
  lemma TrustedExactly(o: Inspection, p: Policy, deviceValid: bool, invalidated: bool, conflicted: bool)
    ensures EvaluateTrust(o, p, deviceValid, invalidated, conflicted).status.Trusted? <==>
            && !o.result.ImpossibleToAssess? && !invalidated && !conflicted
            && o.quality in p.allowedQuality
            && (p.confidenceRequired ==> o.confidence.Some?)
            && (p.minConfidence.Some? ==> o.confidence.Some? && p.minConfidence.value <= o.confidence.value)
            && (p.requiresValidDevice ==> deviceValid)
            && (p.mediaRequired ==> o.evidenceRefs != [])
  {
    var r := Shortcomings(o, p, deviceValid);
    if o.quality !in p.allowedQuality { assert r[0] == "OBSERVATION_QUALITY_NOT_ALLOWED"; }
  }

  predicate Listed(entries: Option<seq<string>>, x: string)
  {
    entries.None? || "*" in entries.value || x in entries.value
  }

  predicate ScopeCovers(scope: Scope, defectType: string, component: Option<string>)
  {
    match scope
    case Unscoped => true
    case DefectList(types) => defectType in types || "*" in types
    case ScopeDict(types, components) =>
      Listed(types, defectType) && (component.None? || Listed(components, component.value))
  }
}
