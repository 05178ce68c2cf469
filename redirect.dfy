/** The `GET *` handler: treat any other path as a short alias and redirect
    to the URL stored under it. */
module Redirect {
  import opened JsValues
  import opened View
  import opened Listing

  /** What `db.getUrlFromAlias(alias)` resolves to. */
  datatype LookupResult = LookupResult(error: MaybeStr, url: string)

  /** How the handler answers. `Home` goes through `renderHome` (so the page
      also carries both listings); `ErrorPage` is `res.render('home', ...)`
      called directly, without listings; `Redirect` is `res.redirect`. */
  datatype Response = Home(vars: Vars) | ErrorPage(vars: Vars) | Redirect(target: string)

  /** The handler's answer together with the alias it looked up, if any. */
  datatype Resolution = Resolution(response: Response, lookedUp: Option<string>)

  const InvalidAliasMessage: string := "Invalid alias specified, cannot redirect to URL"

  /** `path.substr(1)`: everything after the first character, and the empty
      string for the empty path. */
  function LookupKey(path: string): (key: string)
    ensures |path| > 0 ==> path == [path[0]] + key
    ensures path == "" ==> key == ""
  {
    if path == "" then "" else path[1..]
  }

  /** The key of a short link's path is its alias. */
  lemma KeyOfShortPath(alias: string)
    ensures LookupKey("/" + alias) == alias
  {
  }

  /** `{ ...initialVars, csrfToken, error: true, errorMessage: message }`. */
  function ErrorVars(csrfToken: string, message: string): (v: Vars)
    ensures message != "" ==> Consistent(v)
    ensures v.error && v.errorMessage == message && v.csrfToken == csrfToken
    ensures !v.success && !v.errorUrl && !v.errorAlias
    ensures v.urlSaved == v.aliasSaved == ""
    ensures v.url == v.alias == Str("")
  {
    InitialVars(csrfToken).(error := true, errorMessage := message)
  }

  /** Runs the handler on `req.params['0']`, with `lookup` standing for
      `db.getUrlFromAlias`. A missing or empty path is answered with the
      invalid-alias page and no lookup; otherwise the path without its first
      character is looked up, and the answer is a redirect to the stored URL
      unless the lookup reports an error, which is then shown. */
  function Resolve(path: MaybeStr, csrfToken: string, lookup: string -> LookupResult): (r: Resolution)
    ensures !Truthy(path) ==> r.lookedUp == None && r.response == Home(ErrorVars(csrfToken, InvalidAliasMessage))
    ensures Truthy(path) ==> r.lookedUp == Some(path.s[1..])
    ensures r.response.Redirect? <==> Truthy(path) && !Truthy(lookup(path.s[1..]).error)
    ensures r.response.Redirect? ==> r.response.target == lookup(path.s[1..]).url
    ensures r.response.ErrorPage? <==> Truthy(path) && Truthy(lookup(path.s[1..]).error)
    ensures r.response.ErrorPage? ==> r.response.vars == ErrorVars(csrfToken, lookup(path.s[1..]).error.s)
    ensures !r.response.Redirect? ==> Consistent(r.response.vars) && r.response.vars.error
  {
    if !Truthy(path) then
      Resolution(Home(ErrorVars(csrfToken, InvalidAliasMessage)), None)
    else
      var key := LookupKey(path.s);
      var found := lookup(key);
      if Truthy(found.error) then
        Resolution(ErrorPage(ErrorVars(csrfToken, found.error.s)), Some(key))
      else
        Resolution(Redirect(found.url), Some(key))
  }

  /** Following a listed link leads back to the listed row: the path shown
      for row `i` makes the handler look up exactly that row's alias, and the
      row's full redirect URL is the base URL followed by that key. */
  lemma ListedLinkResolves(baseUrl: string, rows: seq<StoredLink>, i: nat,
                               csrfToken: string, lookup: string -> LookupResult)
    requires i < |rows|
    ensures Resolve(Str(Project(baseUrl, rows)[i].alias), csrfToken, lookup).lookedUp == Some(rows[i].alias)
    ensures Project(baseUrl, rows)[i].redirect == baseUrl + LookupKey(Project(baseUrl, rows)[i].alias)
  {
  }
}
