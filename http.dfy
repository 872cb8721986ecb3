/** The part of an HTTP reply the handlers decide: the status code and the `message` field of the JSON body (empty when a successful fetch carries none). */
module Http {
  datatype Response = Response(status: int, message: string)
}
