/**
 * The catalog service as the controller sees it. The transport (base
 * address, HTTP verbs, JSON) is not modelled: each call is the request the
 * controller issues and an outcome supplied from outside.
 */
module Remote {
  import opened Records

  /**
   * What a call returned: the response body, or a failure of any kind
   * (no response or a non-success status), which the controller does not
   * tell apart.
   */
  datatype Outcome<T> = Success(data: T) | Failure

  /** The five calls the controller makes. */
  datatype Request =
    | GetAll                              // GET /getall
    | Search(params: map<Field, string>)  // GET /search with the query as parameters
    | Add(body: Buffer)                   // POST /add
    | Update(id: string, body: Buffer)    // PUT /update/{id}
    | Delete(id: string)                  // DELETE /delete/{id}
}
