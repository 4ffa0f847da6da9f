/** The client-side detection-rule vocabulary (Models/DetectCondition.swift):
    the condition types an operator can pick, the rule types the server
    understands, the mapping between the two, and the condition record. */
module Conditions {
  import opened Base

  /** The client's condition types. `Undefined` is not declared by the
      Swift enum but is used by the view model's initial list; it is added
      here so that both files can be modelled, and it has no server rule type. */
  datatype DetectConditionType = Fall | Collision | Density | Restricted | Undefined

  /** `DetectConditionType.allCases`, in declaration order. */
  const AllCases: seq<DetectConditionType> := [Fall, Collision, Density, Restricted]

  /** The four cases the Swift enum declares. */
  predicate IsDeclared(t: DetectConditionType)
  {
    t in AllCases
  }

  /** `rawValue`: the four declared cases have the four wire names, and
      the added case has a name none of them uses. */
  function RawValue(t: DetectConditionType): (r: string)
    ensures IsDeclared(t) <==> r in {"Fall", "Collision", "Density", "RestrictedArea"}
  {
    match t
    case Fall => "Fall"
    case Collision => "Collision"
    case Density => "Density"
    case Restricted => "RestrictedArea"
    case Undefined => "undefined"
  }

  /** Swift's `init?(rawValue:)`, used when a condition is decoded. */
  function FromRawValue(s: string): (r: Option<DetectConditionType>)
    ensures r.Some? ==> RawValue(r.value) == s
  {
    if s == "Fall" then Some(Fall)
    else if s == "Collision" then Some(Collision)
    else if s == "Density" then Some(Density)
    else if s == "RestrictedArea" then Some(Restricted)
    else if s == "undefined" then Some(Undefined)
    else None
  }

  /** `id` (the `Identifiable` conformance) is the raw value; decoding it
      gives back the case, so the id identifies the case. */
  function Id(t: DetectConditionType): (r: string)
    ensures FromRawValue(r) == Some(t)
  {
    RawValue(t)
  }

  /** `description` (the `CustomStringConvertible` conformance) is the
      raw value too, hence equal to `id`. */
  function Description(t: DetectConditionType): (r: string)
    ensures r == Id(t) && FromRawValue(r) == Some(t)
  {
    RawValue(t)
  }

  /** Distinct cases have distinct ids. */
  lemma IdsDistinct(t1: DetectConditionType, t2: DetectConditionType)
    requires t1 != t2
    ensures Id(t1) != Id(t2)
  {
  }

  /** The rule types the server accepts. */
  datatype ServerRuleType =
    | DistanceBelow
    | ZoneEntry
    | SpeedOver
    | CrowdInZone
    | LineCross
    | Approaching
    | CollisionRisk
    | FallDetection

  /** The wire string of a server rule type (its Swift case name). The
      four types the mapping produces are exactly those with the wire
      strings `fall_detection`, `collision_risk`, `crowd_in_zone` and
      `zone_entry`. */
  function ServerRawValue(s: ServerRuleType): (r: string)
    ensures s in {FallDetection, CollisionRisk, CrowdInZone, ZoneEntry} <==>
            r in {"fall_detection", "collision_risk", "crowd_in_zone", "zone_entry"}
  {
    match s
    case DistanceBelow => "distance_below"
    case ZoneEntry => "zone_entry"
    case SpeedOver => "speed_over"
    case CrowdInZone => "crowd_in_zone"
    case LineCross => "line_cross"
    case Approaching => "approaching"
    case CollisionRisk => "collision_risk"
    case FallDetection => "fall_detection"
  }

  /** `serverRuleType`: the rule type sent to the server for a client type.
      Typed optional, it is absent only for the undeclared `Undefined`. */
  function ServerRuleTypeOf(t: DetectConditionType): (r: Option<ServerRuleType>)
    ensures r.None? <==> !IsDeclared(t)
  {
    match t
    case Fall => Some(FallDetection)
    case Collision => Some(CollisionRisk)
    case Density => Some(CrowdInZone)
    case Restricted => Some(ZoneEntry)
    case Undefined => None
  }

  /** An independent reading of the same table from the server side: which
      client type, if any, produces a server rule type. */
  function ClientTypeOf(s: ServerRuleType): (r: Option<DetectConditionType>)
    ensures r.Some? ==> IsDeclared(r.value)
  {
    match s
    case FallDetection => Some(Fall)
    case CollisionRisk => Some(Collision)
    case CrowdInZone => Some(Density)
    case ZoneEntry => Some(Restricted)
    case _ => None
  }

  /** The two readings agree in both directions, so the mapping is a
      bijection between the declared client types and its image. */
  lemma MappingInverse(t: DetectConditionType, s: ServerRuleType)
    ensures ServerRuleTypeOf(t) == Some(s) <==> ClientTypeOf(s) == Some(t)
  {
    match t
    case Fall =>
    case Collision =>
    case Density =>
    case Restricted =>
    case Undefined =>
  }

  /** Distinct client types map to distinct server rule types. */
  lemma MappingInjective(t1: DetectConditionType, t2: DetectConditionType)
    requires ServerRuleTypeOf(t1).Some? && ServerRuleTypeOf(t1) == ServerRuleTypeOf(t2)
    ensures t1 == t2
  {
    var s := ServerRuleTypeOf(t1).value;
    MappingInverse(t1, s);
    MappingInverse(t2, s);
  }

  /** `distance_below`, `speed_over`, `line_cross` and `approaching` are
      never produced by the mapping. */
  lemma MappingImage(s: ServerRuleType)
    ensures (exists t :: ServerRuleTypeOf(t) == Some(s))
            <==> s in {FallDetection, CollisionRisk, CrowdInZone, ZoneEntry}
  {
    if s in {FallDetection, CollisionRisk, CrowdInZone, ZoneEntry} {
      MappingInverse(ClientTypeOf(s).value, s);
    } else {
      forall t ensures ServerRuleTypeOf(t) != Some(s) {
        MappingInverse(t, s);
      }
    }
  }

  /** What the client can send: a wire string is the server rule type of
      some client condition type exactly when it is one of the four
      mapped names. */
  lemma MappingWireStrings(s: ServerRuleType)
    ensures (exists t :: ServerRuleTypeOf(t) == Some(s)) <==>
            ServerRawValue(s) in {"fall_detection", "collision_risk", "crowd_in_zone", "zone_entry"}
  {
    MappingImage(s);
  }

  /** Condition identifiers (`UUID`): only their identity matters. */
  type Uuid = nat

  /** A detection rule draft. `type` is a Dafny keyword, hence `kind`. */
  datatype DetectCondition = DetectCondition(
    id: Uuid,
    name: string,
    kind: DetectConditionType,
    description: string,
    rate: int,
    durationSec: int)

  /** The short initializer `DetectCondition(type:description:rate:)` used
      by the view model and the add form; the fresh `UUID()` it draws is the
      parameter `id`, and name and duration take their defaults. */
  function NewCondition(id: Uuid, kind: DetectConditionType, description: string, rate: int): (c: DetectCondition)
    ensures c.id == id && c.kind == kind && c.description == description && c.rate == rate
    ensures c.name == "" && c.durationSec == 0
  {
    DetectCondition(id, "", kind, description, rate, 0)
  }
}
