/**
 * The JSON data model that serde and serde_json work with (RFC 8259 values),
 * kept abstract where the SDK only passes values through: floating-point
 * numbers are opaque bit patterns and text rendering/parsing are parameters
 * of the members that need them.
 */
module Json {
  import opened Wrappers

  /** An `f32` kept as its bit pattern; no float arithmetic is modelled. */
  datatype F32 = F32(bits: bv32)

  /** The largest `u64`, which is also `usize::MAX` on the 64-bit targets modelled here. */
  const U64_MAX: nat := 0xFFFF_FFFF_FFFF_FFFF

  /**
   * A parsed JSON value as serde's `deserialize_any` sees it: serde_json
   * hands non-negative integers to `visit_u64`, negative ones to `visit_i64`
   * and everything else numeric to `visit_f64`.
   */
  datatype Json =
    | Null
    | Bool(b: bool)
    | UInt(n: nat)
    | NegInt(i: int)
    | Float(f: F32)
    | Str(s: string)
    | Arr(items: seq<Json>)
    | Obj(fields: seq<(string, Json)>)

  /** Why `str::parse::<usize>` rejects a string (`core::num::IntErrorKind`). */
  datatype IntErrorKind = Empty | InvalidDigit | PosOverflow

  /** A deserialization error (`serde::de::Error` / `serde_json::Error`). */
  datatype DeError =
    | InvalidType(expected: string)
    | MissingField(field: string)
    | UnknownVariant(variant: string)
    | NoMatchingVariant(enumName: string)
    | Custom(message: string)
    | Syntax(reason: string)

  /** The value of the first field named `key`, as a struct deserializer finds it. */
  function Get(fields: seq<(string, Json)>, key: string): (r: Option<Json>)
    ensures r.None? <==> forall i :: 0 <= i < |fields| ==> fields[i].0 != key
    ensures r.Some? ==> exists i :: 0 <= i < |fields| && fields[i] == (key, r.value)
  {
    if |fields| == 0 then None
    else if fields[0].0 == key then Some(fields[0].1)
    else Get(fields[1..], key)
  }

  /** True when no two fields share a name. */
  predicate DistinctKeys(fields: seq<(string, Json)>)
  {
    forall i, j :: 0 <= i < j < |fields| ==> fields[i].0 != fields[j].0
  }

  /** The field names of an object, in order. */
  function Keys(fields: seq<(string, Json)>): (ks: seq<string>)
    ensures |ks| == |fields|
    ensures forall i :: 0 <= i < |fields| ==> ks[i] == fields[i].0
  {
    seq(|fields|, i requires 0 <= i < |fields| => fields[i].0)
  }

  /** In an object with distinct names, a field's value is what `Get` returns for its name. */
  lemma {:induction false} GetDistinct(fields: seq<(string, Json)>, k: nat)
    requires DistinctKeys(fields) && k < |fields|
    ensures Get(fields, fields[k].0) == Some(fields[k].1)
  {
    if k > 0 {
      assert fields[1..][k - 1] == fields[k];
      GetDistinct(fields[1..], k - 1);
    }
  }

  /** A struct field as a derived deserializer needs it: present, or `missing field`. */
  function Field(fields: seq<(string, Json)>, key: string): (r: Result<Json, DeError>)
    ensures r.Ok? <==> Get(fields, key).Some?
    ensures r.Ok? ==> r.value == Get(fields, key).value
    ensures r.Err? ==> r.error == MissingField(key)
  {
    match Get(fields, key)
    case Some(v) => Ok(v)
    case None => Err(MissingField(key))
  }

  /** A `String`: only a JSON string deserializes to one. */
  function AsStr(j: Json): (r: Result<string, DeError>)
    ensures r.Ok? <==> j.Str?
    ensures r.Ok? ==> r.value == j.s
  {
    if j.Str? then Ok(j.s) else Err(InvalidType("a string"))
  }

  /** A string-valued struct field. */
  function StrField(fields: seq<(string, Json)>, key: string): (r: Result<string, DeError>)
    ensures r.Ok? <==> Get(fields, key).Some? && Get(fields, key).value.Str?
    ensures r.Ok? ==> Get(fields, key) == Some(Str(r.value))
  {
    match Field(fields, key)
    case Err(e) => Err(e)
    case Ok(v) => AsStr(v)
  }

  /** A key that none of the leading fields has is looked up in the rest. */
  lemma {:induction false} GetAppendSkip(head: seq<(string, Json)>, tail: seq<(string, Json)>, key: string)
    requires forall i :: 0 <= i < |head| ==> head[i].0 != key
    ensures Get(head + tail, key) == Get(tail, key)
  {
    if |head| > 0 {
      assert (head + tail)[0] == head[0];
      assert (head + tail)[1..] == head[1..] + tail;
      GetAppendSkip(head[1..], tail, key);
    } else {
      assert head + tail == tail;
    }
  }

  /** A key found among the leading fields is found there whatever follows. */
  lemma {:induction false} GetAppendFound(head: seq<(string, Json)>, tail: seq<(string, Json)>, key: string)
    requires Get(head, key).Some?
    ensures Get(head + tail, key) == Get(head, key)
  {
    assert (head + tail)[0] == head[0];
    if head[0].0 != key {
      assert (head + tail)[1..] == head[1..] + tail;
      GetAppendFound(head[1..], tail, key);
    }
  }

  /** Looking a key up in `a + b` finds it in `a` first, else in `b`. */
  lemma {:induction false} GetConcat(a: seq<(string, Json)>, b: seq<(string, Json)>, key: string)
    ensures Get(a + b, key) == if Get(a, key).Some? then Get(a, key) else Get(b, key)
  {
    if Get(a, key).Some? {
      GetAppendFound(a, b, key);
    } else {
      GetAppendSkip(a, b, key);
    }
  }
}
