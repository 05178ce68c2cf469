/** The record the handlers fill in and hand to the `home` template
    (`initialVars` plus the CSRF token), and `renderHome`. */
module View {
  import opened JsValues
  import opened Listing

  datatype Vars = Vars(
    success: bool,        // a new short URL was saved
    urlSaved: string,     // the long URL that was saved
    aliasSaved: string,   // the full short URL that was saved
    error: bool,          // general error
    errorMessage: string,
    errorUrl: bool,       // the submitted url is rejected
    errorAlias: bool,     // the submitted alias is rejected
    url: MaybeStr,        // form value echoed back
    alias: MaybeStr,      // form value echoed back
    csrfToken: string)

  /** `{ ...initialVars, csrfToken }`. */
  function InitialVars(csrfToken: string): (v: Vars)
    ensures !v.success && !v.error && !v.errorUrl && !v.errorAlias
    ensures v.urlSaved == v.aliasSaved == v.errorMessage == ""
    ensures v.url == v.alias == Str("")
    ensures v.csrfToken == csrfToken
  {
    Vars(false, "", "", false, "", false, false, Str(""), Str(""), csrfToken)
  }

  /** Some error flag is raised. */
  predicate AnyError(v: Vars)
  {
    v.error || v.errorUrl || v.errorAlias
  }

  /** What every record the handlers render satisfies: success and errors
      exclude each other, a general error always carries a message, the
      saved fields are filled exactly on success, and the form values are
      echoed back only when something went wrong. */
  predicate Consistent(v: Vars)
  {
    && !(v.success && AnyError(v))
    && (v.error <==> v.errorMessage != "")
    && (v.success <==> v.aliasSaved != "")
    && (!v.success ==> v.urlSaved == "")
    && (!AnyError(v) ==> v.url == Str("") && v.alias == Str(""))
  }

  lemma InitialVarsConsistent(csrfToken: string)
    ensures Consistent(InitialVars(csrfToken)) && !AnyError(InitialVars(csrfToken))
  {
  }

  /** The data object after `renderHome` has attached both listings. */
  datatype Page = Page(vars: Vars, latest: seq<DisplayRow>, mostViewed: seq<DisplayRow>)

  /** `renderHome(req, res, data)`: the record is passed through and the two
      storage listings are projected against the request's base URL. */
  function RenderHome(vars: Vars, protocol: string, host: string,
                      latest: seq<StoredLink>, mostViewed: seq<StoredLink>): (p: Page)
    ensures p.vars == vars
    ensures p.latest == Project(BaseUrl(protocol, host), latest)
    ensures p.mostViewed == Project(BaseUrl(protocol, host), mostViewed)
    ensures |p.latest| == |latest| && |p.mostViewed| == |mostViewed|
    ensures forall i :: 0 <= i < |latest| ==>
      && p.latest[i].alias == "/" + latest[i].alias
      && p.latest[i].redirect == BaseUrl(protocol, host) + latest[i].alias
      && p.latest[i].url == latest[i].url && p.latest[i].visits == latest[i].visits
      && p.latest[i].createdAt == FromNow(latest[i].createdAt)
    ensures forall i :: 0 <= i < |mostViewed| ==>
      && p.mostViewed[i].alias == "/" + mostViewed[i].alias
      && p.mostViewed[i].redirect == BaseUrl(protocol, host) + mostViewed[i].alias
      && p.mostViewed[i].url == mostViewed[i].url && p.mostViewed[i].visits == mostViewed[i].visits
      && p.mostViewed[i].createdAt == FromNow(mostViewed[i].createdAt)
  {
    var baseUrl := BaseUrl(protocol, host);
    Page(vars, Project(baseUrl, latest), Project(baseUrl, mostViewed))
  }
}
