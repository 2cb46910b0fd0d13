/** How a SvelteKit server hook, load function or form action ends. */
module Kit {

  /**
   * `redirect(status, location)`, `error(status, message)` (an HTTP error page),
   * `fail(status, message)` (a form action failure), or the data the page renders
   * (for the hook: the request is passed on to `resolve`).
   */
  datatype Outcome<T> =
    | Redirect(status: nat, location: string)
    | HttpError(status: nat, message: string)
    | Fail(status: nat, message: string)
    | Render(data: T)
}
