/**
 * The shared HTTP client the pages call. Its implementation is not part of
 * this model: a request is recorded in the client's log, and how the awaited
 * request settles is an input to the operation that issued it.
 */
module Api {

  /** The JSON body of a request, as the pages build it. */
  datatype Body =
    | Credentials(email: string, password: string)
    | Registration(name: string, email: string, password: string)
    | NewTransaction(txType: string, amount: real, category: string, date: string, description: string)

  /** One request issued through the client. */
  datatype Call =
    | Get(path: string)
    | Post(path: string, body: Body)
    | Delete(path: string)

  /** How an awaited request settles: resolved with the response data, or rejected. */
  datatype Reply<T> = Ok(data: T) | Failed

  /** The client; `log` holds every request issued so far, oldest first. */
  class Client {
    var log: seq<Call>

    constructor()
      ensures log == []
    {
      log := [];
    }

    method Send(call: Call)
      modifies this
      ensures log == old(log) + [call]
    {
      log := log + [call];
    }
  }
}
