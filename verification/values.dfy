/** The payloads this layer passes through without looking inside them. */
module Values {

  /** A JavaScript value as seen by the orchestration layer: job data, job and
      queue options, log bodies and the free-form job state are all carried
      verbatim, so their structure only needs to support equality.
      Numbers are modelled as mathematical integers. */
  datatype Value =
    | Undefined
    | Null
    | Bool(b: bool)
    | Num(n: int)
    | Str(s: string)
    | Arr(items: seq<Value>)
    | Obj(fields: seq<(string, Value)>)
}
