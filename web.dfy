/**
 * Redirect targets: the string handed to `new URL(target, request.url)`, a path plus query
 * parameters. A relative target resolves against the request's origin; an absolute `next`
 * keeps its own. `encodeURIComponent` is not modelled: rendering takes
 * the encoder as a parameter, and a parameter records whether the source passes its value
 * through it or writes it as is.
 */
module Web {

  datatype QueryValue = Encoded(text: string) | Verbatim(text: string)

  datatype Param = Param(key: string, value: QueryValue)

  datatype Target = Target(path: string, query: seq<Param>)

  function ValueText(v: QueryValue, encode: string -> string): string {
    match v
    case Encoded(t) => encode(t)
    case Verbatim(t) => t
  }

  /** `k1=v1&k2=v2...` */
  function QueryText(q: seq<Param>, encode: string -> string): string {
    if q == [] then ""
    else
      var first := q[0].key + "=" + ValueText(q[0].value, encode);
      if |q| == 1 then first else first + "&" + QueryText(q[1..], encode)
  }

  /** The target as the string handed to the URL constructor. */
  function Render(t: Target, encode: string -> string): string {
    if t.query == [] then t.path else t.path + "?" + QueryText(t.query, encode)
  }

  /** A target with one parameter renders as `path?key=value`. */
  lemma RenderOne(path: string, key: string, v: QueryValue, encode: string -> string)
    ensures Render(Target(path, [Param(key, v)]), encode) == path + "?" + key + "=" + ValueText(v, encode)
  {
  }

  /** A target with two parameters renders as `path?k1=v1&k2=v2`. */
  lemma RenderTwo(path: string, k1: string, v1: QueryValue, k2: string, v2: QueryValue, encode: string -> string)
    ensures Render(Target(path, [Param(k1, v1), Param(k2, v2)]), encode)
      == path + "?" + k1 + "=" + ValueText(v1, encode) + "&" + k2 + "=" + ValueText(v2, encode)
  {
    var q := [Param(k1, v1), Param(k2, v2)];
    var a, b := k1 + "=" + ValueText(v1, encode), k2 + "=" + ValueText(v2, encode);
    assert q[1..] == [Param(k2, v2)];
    assert QueryText(q[1..], encode) == b;
    assert QueryText(q, encode) == a + "&" + b;
    assert path + "?" + (a + "&" + b) == path + "?" + k1 + "=" + ValueText(v1, encode) + "&" + b;
  }
}
