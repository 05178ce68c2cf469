/** The `POST /` handler: validate the submitted url and alias, ask storage
    to save them when both are acceptable, and fill in the page record. */
module CreateLink {
  import opened JsValues
  import opened AliasPattern
  import opened Listing
  import opened View

  /** The fields of `req.body` the handler reads. */
  datatype Body = Body(url: MaybeStr, alias: MaybeStr)

  /** What `db.addUrl(url, alias)` resolves to. */
  datatype AddUrlResult = AddUrlResult(error: MaybeStr, success: bool, alias: string)

  /** The url check on its own: missing, empty, or refused by `isURL`. */
  predicate UrlRejected(url: MaybeStr, isUrl: string -> bool)
  {
    !Truthy(url) || !isUrl(url.s)
  }

  /** The alias check on its own: only a truthy alias is tested. */
  predicate AliasRejected(alias: MaybeStr)
  {
    Truthy(alias) && !MatchesAlias(alias.s)
  }

  /** Runs the handler. `isUrl` stands for `isURL` and `addUrl` for
      `db.addUrl`; `calls` lists the arguments of every storage call made. */
  method HandleCreate(body: Body, csrfToken: string, protocol: string, host: string,
                      isUrl: string -> bool, addUrl: (MaybeStr, MaybeStr) -> AddUrlResult)
    returns (vars: Vars, calls: seq<(MaybeStr, MaybeStr)>)
    ensures Consistent(vars)
    ensures vars.csrfToken == csrfToken
    // validation
    ensures vars.errorUrl <==> UrlRejected(body.url, isUrl)
    ensures vars.errorAlias <==> AliasRejected(body.alias)
    ensures !Truthy(body.alias) ==> !vars.errorAlias
    // storage is consulted once, with the submitted values, exactly when both checks pass
    ensures calls == if !vars.errorUrl && !vars.errorAlias then [(body.url, body.alias)] else []
    // outcome of the storage call
    ensures vars.error <==> calls != [] && Truthy(addUrl(body.url, body.alias).error)
    ensures vars.error ==> vars.errorMessage == addUrl(body.url, body.alias).error.s
    ensures vars.success <==> calls != [] && !Truthy(addUrl(body.url, body.alias).error) && addUrl(body.url, body.alias).success
    ensures vars.success ==>
      && vars.urlSaved == body.url.s
      && vars.aliasSaved == BaseUrl(protocol, host) + addUrl(body.url, body.alias).alias
    // the form is echoed back only on some error
    ensures AnyError(vars) ==> vars.url == body.url && vars.alias == body.alias
    ensures !AnyError(vars) ==> vars.url == Str("") && vars.alias == Str("")
  {
    vars := InitialVars(csrfToken);
    calls := [];

    if !Truthy(body.url) || !isUrl(body.url.s) {
      vars := vars.(errorUrl := true);
    }

    if Truthy(body.alias) && !MatchesAlias(body.alias.s) {
      vars := vars.(errorAlias := true);
    }

    if !vars.errorUrl && !vars.errorAlias {
      var added := addUrl(body.url, body.alias);
      calls := calls + [(body.url, body.alias)];
      if Truthy(added.error) {
        vars := vars.(error := true, errorMessage := added.error.s);
      } else if added.success {
        vars := vars.(success := true, urlSaved := body.url.s,
                      aliasSaved := BaseUrl(protocol, host) + added.alias);
      }
    }

    if vars.error || vars.errorUrl || vars.errorAlias {
      vars := vars.(url := body.url, alias := body.alias);
    }
  }
}
