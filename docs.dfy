/**
 * The JSON-like records the edit page passes between its components: the
 * SLO under edit, the form's save payload, and the saved result. A key that
 * is absent reads as `undefined`.
 */
module Docs {
  import opened Optional

  /** The property names the edit page's records use. */
  datatype DocKey =
    | Id | Name | Description | Service | MetricSource | TargetThreshold | EvaluationWindow
    | AlertingEnabled | AlertThreshold | NotificationChannels
    | Status | CreatedAt | UpdatedAt | Version | SaveAsNew

  /** A property value: a string, a boolean, a list of strings, or a `Date` (by its timestamp text). */
  datatype JsonValue = JStr(s: string) | JBool(b: bool) | JList(items: seq<string>) | JDate(stamp: string)

  type Doc = map<DocKey, JsonValue>

  /** `doc?.key`: `None` stands for `undefined`. */
  function Get(d: Doc, k: DocKey): (v: Option<JsonValue>)
    ensures v.Some? <==> k in d
    ensures v.Some? ==> v.value == d[k]
  {
    if k in d then Some(d[k]) else None
  }

  /** JavaScript truthiness: `undefined`, `''` and `false` are falsy; lists and dates are objects, so truthy. */
  predicate Truthy(v: Option<JsonValue>) {
    match v
    case None => false
    case Some(JStr(s)) => s != ""
    case Some(JBool(b)) => b
    case Some(_) => true
  }
}
