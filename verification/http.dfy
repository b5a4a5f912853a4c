/** What one outbound httpx GET produces, seen from the caller: the decoded
    JSON body, or an `httpx.HTTPError` carrying its message text. */
module Http {

  datatype Response<+T> = Body(value: T) | HttpError(text: string)
}
