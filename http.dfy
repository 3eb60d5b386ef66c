/** The outcome of one `fetch` call, taken as a parameter: the network itself
    is not part of the model. */
module Http {
  import opened Json

  /** A settled request carries its status, its body text (`res.text()`) and
      its decoded body (`res.json()`, `None` when the body cannot be decoded);
      a rejected request is a `NetworkError`. */
  datatype Response =
    | Response(status: int, text: string, json: Option<Json>)
    | NetworkError

  /** `res.ok`: a status in the range 200-299. */
  predicate IsOk(r: Response) {
    r.Response? && 200 <= r.status <= 299
  }
}
