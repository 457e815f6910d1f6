/** Addresses, envelopes and status codes, shared by the transports. */
module Transport {
  import opened Messages

  datatype Address = Address(name: string)

  datatype Envelope = Envelope(
    payload: string,
    contentType: string,
    headers: map<string, string>,
    correlationId: string,
    replyTo: Option<Address>)

  datatype StatusCode = Ok | Timeout | Unavailable | Unsupported | InvalidArgument | Internal

  datatype Result<+T> = Success(value: T) | Failure(code: StatusCode)
}
