/**
 The few Python values the memory pipeline inspects with `isinstance`: a
 string, a list of values, or anything else (None, a number, a dict, ...),
 together with the two exceptions the pipeline can raise on them.
 */
module PyValues {

  datatype Value =
    | Str(s: string)
    | List(items: seq<Value>)
    | Other(typeName: string)

  /** The name Python reports for the type of a value in its error messages. */
  function TypeName(v: Value): string {
    match v
    case Str(_) => "str"
    case List(_) => "list"
    case Other(name) => name
  }

  datatype Error =
    | ValueError(message: string)
    | TypeError(message: string)

  datatype Result<T> = Ok(value: T) | Err(error: Error)

  predicate AllStr(vs: seq<Value>) {
    forall i :: 0 <= i < |vs| ==> vs[i].Str?
  }

  /** The texts of a sequence of string values. */
  function Texts(vs: seq<Value>): (ts: seq<string>)
    requires AllStr(vs)
    ensures |ts| == |vs|
    ensures forall i :: 0 <= i < |vs| ==> vs[i] == Str(ts[i])
  {
    seq(|vs|, i requires 0 <= i < |vs| => vs[i].s)
  }

  /** Wraps texts as string values. */
  function Strs(ts: seq<string>): (vs: seq<Value>)
    ensures AllStr(vs)
    ensures Texts(vs) == ts
  {
    seq(|ts|, i requires 0 <= i < |ts| => Str(ts[i]))
  }
}
