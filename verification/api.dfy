/** The shared request plumbing the modelled clients call but that lives
    outside the modelled files: pagination fields and their serialisers,
    `JoinPath`, `url.Values.Encode`, and the method-plus-path shape of a
    request. Their bodies are not part of this model, so the operations are
    passed in as functions. */
module Api {
  import opened Wrappers
  import opened UrlValues

  /** `clerk.ListParams` / `PaginationParams`: optional limit and offset. */
  datatype Page = Page(limit: Option<int>, offset: Option<int>)

  /** `params.ListParams.ToQuery()`. */
  type BaseToQuery = Page -> Values

  /** `addPaginationParams(query, params)`, returning the updated query. */
  type AddPagination = (Values, Page) -> Values

  /** `clerk.JoinPath(segments...)`, which may fail. */
  type JoinPath = seq<string> -> Result<string, string>

  /** `url.Values.Encode`. */
  type Encode = Values -> string

  /** The HTTP verbs the modelled operations use. */
  datatype Method = Get | Post | Put

  /** A request as handed to the transport: verb and path (with any query). */
  datatype Request = Request(verb: Method, path: string)
}
