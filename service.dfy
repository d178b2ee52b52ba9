/** The remote content service as the bot sees it: the requests it sends
    and the decoded answers it gets back. The HTTP round trip itself is not
    modelled; a handler receives what the call produced as a parameter. */
module Service {
  import opened Js

  /** The `length` parameter every generate request carries. */
  const OPTIMAL_LENGTH: string := "optimal"

  /** The `limit` parameter of the vault request. */
  const VAULT_LIMIT: int := 5

  /** One request to the service: the action with its parameters. */
  datatype Call =
    | CaptureCall(rawText: string)
    | RefineCall(post: Option<string>, command: string)
    | GenerateCall(rawText: string, length: string)
    | StatusCall
    | VaultCall(limit: int)

  /** What an awaited call produced: a decoded JSON body, or an exception
      (network failure, a body that is not JSON). */
  datatype Outcome<+T> = Returned(data: T) | Threw

  /** The body of a capture, refine or generate answer; only the fields the
      bot reads. */
  datatype PostResponse = PostResponse(
    error: Option<string>,
    post: Option<string>,
    content: Option<string>)

  /** `data.usage.generations` of a status answer. */
  datatype Generations = Generations(
    used: Option<int>,
    limit: Option<int>,
    remaining: Option<int>,
    unlimited: bool)

  datatype Usage = Usage(generations: Option<Generations>)

  datatype StatusResponse = StatusResponse(
    error: Option<string>,
    tier: Option<string>,
    usage: Option<Usage>)

  /** One entry of `data.captures`. */
  datatype CaptureEntry = CaptureEntry(rawText: string, shaped: bool)

  datatype VaultResponse = VaultResponse(
    error: Option<string>,
    captures: Option<seq<CaptureEntry>>)

  /** `if (data.error)`: the service reported an error, which is a present
      and non-empty error text. */
  predicate Reported(error: Option<string>): (b: bool)
    ensures b <==> error.Some? && |error.value| > 0
  {
    Truthy(error)
  }
}
