/** Create-time checking of the field kinds the collections declare: a missing
    value takes the field's `defaultValue`, then `required`, `min` and the
    select options are enforced. */
module Fields {
  import opened Outcomes
  import opened Access

  datatype FieldError =
    | Required(field: string)
    | BelowMinimum(field: string, min: real)
    | NotAnOption(field: string)

  /** The value after the `defaultValue` is filled in for a missing one. */
  function WithDefault<T>(v: Option<T>, default: Option<T>): (r: Option<T>)
    ensures v.Some? ==> r == v
    ensures v.None? ==> r == default
  {
    if v.Some? then v else default
  }

  /** A `number` field with `required: true` and `min`. */
  function RequiredNumber(field: string, v: Option<real>, default: Option<real>, min: real): (r: Result<real, FieldError>)
    ensures r.Ok? ==> r.value >= min
    ensures r.Ok? ==> WithDefault(v, default) == Some(r.value)
    ensures r.Ok? <==> WithDefault(v, default).Some? && WithDefault(v, default).value >= min
    ensures WithDefault(v, default).None? ==> r == Err(Required(field))
  {
    match WithDefault(v, default)
    case None => Err(Required(field))
    case Some(x) => if x < min then Err(BelowMinimum(field, min)) else Ok(x)
  }

  /** A `text` field with `required: true`: the empty string counts as missing. */
  function RequiredText(field: string, v: Option<string>): (r: Result<string, FieldError>)
    ensures r.Ok? <==> v.Some? && |v.value| > 0
    ensures r.Ok? ==> r.value == v.value
    ensures r.Err? ==> r.error == Required(field)
  {
    if v.Some? && |v.value| > 0 then Ok(v.value) else Err(Required(field))
  }

  /** A `relationship` or `upload` field with `required: true`. */
  function RequiredRef(field: string, v: Option<Ref>): (r: Result<Ref, FieldError>)
    ensures r.Ok? <==> v.Some?
    ensures r.Ok? ==> r.value == v.value
  {
    match v
    case Some(x) => Ok(x)
    case None => Err(Required(field))
  }

  /** A `select` field with `required: true`: the (defaulted) value must be
      one of the options, which `parse` recognises. */
  function RequiredSelect<T>(field: string, v: Option<string>, default: Option<string>,
                             parse: string -> Option<T>): (r: Result<T, FieldError>)
    ensures r.Ok? <==> WithDefault(v, default).Some? && parse(WithDefault(v, default).value).Some?
    ensures r.Ok? ==> parse(WithDefault(v, default).value) == Some(r.value)
  {
    match WithDefault(v, default)
    case None => Err(Required(field))
    case Some(s) =>
      match parse(s)
      case Some(x) => Ok(x)
      case None => Err(NotAnOption(field))
  }
}
