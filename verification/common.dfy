/** Value types shared by the services and components: optional values, the
    JavaScript truthiness of optional string fields, and the point record of a
    point cloud. */
module Common {

  /** `undefined`/`null` versus a present value. */
  datatype Option<+T> = None | Some(value: T) {
    /** The zero- or one-element sequence of what is present. */
    function ToSeq(): (s: seq<T>)
      ensures None? <==> s == []
      ensures Some? ==> s == [value]
    {
      if Some? then [value] else []
    }
  }

  /** A JavaScript number read from JSON or from the sensor. The model only
      copies these values around; it never computes on them. */
  type Number = real

  /** A timestamp taken with `new Date()`. The clock is not modelled: callers
      pass the instant in. */
  type Time = int

  /** Truthiness of a `string | undefined` field: absent and `""` are falsy. */
  predicate Truthy(s: Option<string>) {
    s.Some? && s.value != ""
  }

  /** `s || fallback` on a `string | undefined` field. */
  function OrElse(s: Option<string>, fallback: string): string {
    if Truthy(s) then s.value else fallback
  }

  /** `PointCloudData`: a position and an optional normal. */
  datatype Point = Point(x: Number, y: Number, z: Number,
                         nx: Option<Number>, ny: Option<Number>, nz: Option<Number>)
}
