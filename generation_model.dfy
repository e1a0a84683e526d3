/**
 * The text-generation model name of src/generation/mod.rs: three named
 * models with fixed wire names and an untagged `Custom` fallback that
 * carries any other name verbatim.
 */
module GenerationModel {
  import opened Wrappers
  import opened Json

  datatype Model = GigaChat2Lite | GigaChat2Pro | GigaChat2Max | Custom(name: string)

  const LITE_NAME: string := "GigaChat-2"
  const PRO_NAME: string := "GigaChat-2-Pro"
  const MAX_NAME: string := "GigaChat-2-Max"

  /** A name taken by one of the named variants. */
  predicate IsReservedName(s: string)
  {
    s == LITE_NAME || s == PRO_NAME || s == MAX_NAME
  }

  /** `#[default]`: the most capable model. */
  function DefaultModel(): (m: Model)
    ensures !m.Custom? && ModelName(m) == MAX_NAME
  {
    GigaChat2Max
  }

  /** The string a model serializes to: its `rename`, or the custom name itself. */
  function ModelName(m: Model): (s: string)
    ensures m.Custom? ==> s == m.name
    ensures !m.Custom? ==> IsReservedName(s)
  {
    match m
    case GigaChat2Lite => LITE_NAME
    case GigaChat2Pro => PRO_NAME
    case GigaChat2Max => MAX_NAME
    case Custom(name) => name
  }

  /**
   * Which variant a string deserializes to: the tagged variants are tried
   * first, so a reserved name is always the named model.
   */
  function ModelFromName(s: string): (m: Model)
    ensures ModelName(m) == s
    ensures m.Custom? <==> !IsReservedName(s)
  {
    if s == LITE_NAME then GigaChat2Lite
    else if s == PRO_NAME then GigaChat2Pro
    else if s == MAX_NAME then GigaChat2Max
    else Model.Custom(s)
  }

  /** Serialization: a unit variant and the untagged `Custom(String)` are both bare strings. */
  function EncodeModel(m: Model): (j: Json)
    ensures j.Str? && j.s == ModelName(m)
  {
    Str(ModelName(m))
  }

  /**
   * Deserialization of an enum with an untagged variant: first as an
   * externally tagged enum (a variant name, or a one-field object mapping
   * the name to `null`), then as `Custom(String)`; anything else matches no
   * variant.
   */
  function DecodeModel(j: Json): (r: Result<Model, DeError>)
    ensures j.Str? ==> r.Ok? && EncodeModel(r.value) == j
    ensures j.Str? && !IsReservedName(j.s) ==> r == Ok(Model.Custom(j.s))
    ensures r.Ok? && r.value.Custom? ==> j == Str(r.value.name)
    ensures !j.Str? && !j.Obj? ==> r == Err(NoMatchingVariant("Model"))
  {
    match j
    case Str(s) => Ok(ModelFromName(s))
    case Obj(fields) =>
      if |fields| == 1 && fields[0].1 == Null && IsReservedName(fields[0].0) then Ok(ModelFromName(fields[0].0))
      else Err(NoMatchingVariant("Model"))
    case _ => Err(NoMatchingVariant("Model"))
  }

  /**
   * Encoding then decoding gives the model back exactly when it is not a
   * `Custom` model that uses a reserved name; such a model comes back as
   * the named one.
   */
  lemma ModelRoundTrip(m: Model)
    ensures DecodeModel(EncodeModel(m)) == Ok(m) <==> !(m.Custom? && IsReservedName(m.name))
    ensures m.Custom? && IsReservedName(m.name) ==> DecodeModel(EncodeModel(m)) == Ok(ModelFromName(m.name))
  {
  }
}
