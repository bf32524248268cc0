/**
 * Media types as the two adapters use them: a type, a subtype and parameters.
 * Parsing (MediaType.valueOf) and matching (MediaType.matcher) are not part of
 * this model; matching is passed in where it is used.
 */
module Media {

  datatype MediaType = MediaType(mainType: string, subType: string, params: seq<(string, string)>)

  /** MediaType.name(): "type/subtype"; the parameters are not part of it. */
  function Name(m: MediaType): string {
    m.mainType + "/" + m.subType
  }

  /** MediaType.all, the full wildcard. */
  const All := MediaType("*", "*", [])

  /** MediaType.html, the response's default type. */
  const Html := MediaType("text", "html", [])

  /** MediaType.multipart. */
  const Multipart := MediaType("multipart", "form-data", [])

  /** The request test `type().name().startsWith(MediaType.multipart.name())`. */
  predicate IsMultipart(m: MediaType) {
    Name(Multipart) <= Name(m)
  }
}
