/** The global response interceptor: every controller result leaves the
    server as `{status, data}` unless it already has that shape. */
module TransformInterceptor {
  import opened Json

  /** Already in the standard shape: an object with `status` and `data` or `message`. */
  predicate IsEnvelope(v: Json) {
    Truthy(v) && v.JObj? && HasKey(v, "status") && (HasKey(v, "data") || HasKey(v, "message"))
  }

  /** The value the interceptor's `map` emits for a controller result `v`. */
  function Transform(v: Json): (r: Json)
    ensures IsEnvelope(r)
    ensures IsEnvelope(v) ==> r == v
    ensures !IsEnvelope(v) ==> Get(r, "status") == JStr("success") && Get(r, "data") == v
    ensures !IsEnvelope(v) ==> r.JObj? && r.fields.Keys == {"status", "data"}
  {
    if IsEnvelope(v) then v
    else JObj(map["status" := JStr("success"), "data" := v])
  }

  /** Wrapping a wrapped value changes nothing. */
  lemma TransformIdempotent(v: Json)
    ensures Transform(Transform(v)) == Transform(v)
  {
  }

  /** An entity with its own `status` field (a listing, say) but neither
      `data` nor `message` is wrapped, not passed through. */
  lemma EntityWithStatusIsWrapped(fields: map<string, Json>)
    requires "status" in fields && "data" !in fields && "message" !in fields
    ensures Get(Transform(JObj(fields)), "data") == JObj(fields)
    ensures Get(Transform(JObj(fields)), "status") == JStr("success")
  {
  }
}
