/** Values shared by the whole router: families, levels, bounded scores, task types, provenance. */
module Types {

  datatype Option<+T> = None | Some(value: T)

  /** A Codex model family; every family outside the built-in taxonomy ranks with Sol. */
  datatype ModelFamily = Luna | Terra | Sol | Other(name: string) {
    function Rank(): nat {
      match this
      case Luna => 0
      case Terra => 1
      case _ => 2
    }
  }

  /** User-facing reasoning levels, declared from weakest to strongest. */
  datatype ReasoningLevel = Minimal | Low | Medium | High | ExtraHigh | Max | Ultra {
    function Rank(): nat {
      match this
      case Minimal => 0
      case Low => 1
      case Medium => 2
      case High => 3
      case ExtraHigh => 4
      case Max => 5
      case Ultra => 6
    }

    /** The exact native Codex value. */
    function NativeName(): string {
      match this
      case Minimal => "minimal"
      case Low => "low"
      case Medium => "medium"
      case High => "high"
      case ExtraHigh => "xhigh"
      case Max => "max"
      case Ultra => "ultra"
    }
  }

  datatype TaskType =
    Empty | Documentation | Mechanical | Coding | Diagnosis | Architecture | Research | Review

  datatype RouteSource = Local | NativePreserved | Explicit

  /** A dimension score, always within zero through four. */
  type BoundedScore = n: nat | n <= 4

  /** A signed policy delta (8-bit in the program). */
  type Delta = n: int | -128 <= n < 128

  function Saturate(score: BoundedScore, delta: int): BoundedScore {
    if score + delta < 0 then 0 else if score + delta > 4 then 4 else score + delta
  }

  function RaiseTo(score: BoundedScore, floor: BoundedScore): BoundedScore {
    if score < floor then floor else score
  }

  function LowerTo(score: BoundedScore, ceiling: BoundedScore): BoundedScore {
    if score > ceiling then ceiling else score
  }

  /** The seven routing dimensions. */
  datatype Dimensions = Dimensions(
    scope: BoundedScore,
    ambiguity: BoundedScore,
    cost: BoundedScore,
    runtime: BoundedScore,
    depth: BoundedScore,
    verification: BoundedScore,
    parallel: BoundedScore)
  {
    /** Every dimension of this task is at most the same dimension of the other. */
    predicate Leq(other: Dimensions) {
      && scope <= other.scope
      && ambiguity <= other.ambiguity
      && cost <= other.cost
      && runtime <= other.runtime
      && depth <= other.depth
      && verification <= other.verification
      && parallel <= other.parallel
    }
  }

  /** Every dimension raised to a floor of its own. */
  function Joined(d: Dimensions, floors: Dimensions): Dimensions {
    Dimensions(
      RaiseTo(d.scope, floors.scope),
      RaiseTo(d.ambiguity, floors.ambiguity),
      RaiseTo(d.cost, floors.cost),
      RaiseTo(d.runtime, floors.runtime),
      RaiseTo(d.depth, floors.depth),
      RaiseTo(d.verification, floors.verification),
      RaiseTo(d.parallel, floors.parallel))
  }

  const DEFAULT_DIMENSIONS := Dimensions(1, 1, 1, 0, 1, 1, 0)

  /** Signed adjustments of one policy rule, one per dimension. */
  datatype Deltas = Deltas(
    scope: Delta,
    ambiguity: Delta,
    cost: Delta,
    runtime: Delta,
    depth: Delta,
    verification: Delta,
    parallel: Delta)

  function ApplyDeltas(d: Dimensions, e: Deltas): Dimensions {
    Dimensions(
      Saturate(d.scope, e.scope),
      Saturate(d.ambiguity, e.ambiguity),
      Saturate(d.cost, e.cost),
      Saturate(d.runtime, e.runtime),
      Saturate(d.depth, e.depth),
      Saturate(d.verification, e.verification),
      Saturate(d.parallel, e.parallel))
  }

  function AbsDiff(a: nat, b: nat): nat { if a < b then b - a else a - b }
}
