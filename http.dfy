/** The HTTP responses the HTTP-triggered entry points return. */
module Http {
  datatype Response = Response(status: int, body: string)
}
