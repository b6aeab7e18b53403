/** JSON values. */
module JsonValues {
  datatype Scalar = Null | Bool(truth: bool) | Number(number: real) | String(text: string)

  datatype Json = Plain(scalar: Scalar) | Array(items: seq<Json>) | Object(fields: map<string, Json>)

  const NULL := Plain(Null)
}
