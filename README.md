# URL shortener request handling — Dafny model

A model of the decision logic in the URL shortener's `index.js`: the alias
character check, the create-link handler (`POST /`), the redirect handler
(`GET *`) and the projection that `renderHome` applies to the "latest" and
"most viewed" listings. Express, the storage layer and the URL checker are
not part of this model; their results enter as parameters:

- `isURL` (from `src/utils/URL`, which is not part of this model) is the
  function parameter `isUrl`;
- `db.addUrl` and `db.getUrlFromAlias` (from `src/db/index`, which is not part
  of this model) are the function parameters `addUrl` and `lookup`; the
  handlers report which storage calls they make (`calls`, `lookedUp`);
- `db.getLatest()` / `db.getMostViewed()` are the row sequences given to
  `RenderHome`;
- `req.protocol`, `req.headers.host` and `req.csrfToken()` are string
  parameters.

Form fields and storage results that may be `undefined` or a string are
`JsValues.MaybeStr`, with JavaScript truthiness (`undefined` and `''` are
falsy).

The alias check follows the regular expression as written,
`/^[aA-zZ0-9-]+$/`, not the "letters, digits and hyphen" that its comment at index.js:63 states: the range `A-z` runs through the code points 65
to 122 and so also admits `[ \ ] ^ _` and the backtick.
`AliasPattern.AliasClassCharacterised` states the class exactly and
`AliasPattern.AliasExamples` shows `my_site` and `[x]` being accepted.

Files: `js_values.dfy` (MaybeStr, Option), `alias_pattern.dfy`,
`listing.dfy`, `view.dfy` (the page record and `renderHome`),
`create_link.dfy`, `redirect.dfy`.

## Model

| member | source | states |
|---|---|---|
| AliasPattern.MatchesAlias | index.js:64 | a string passes `^[aA-zZ0-9-]+$` iff it is non-empty and every character is `a`, `Z`, a digit, `-` or in the code-point range `A`..`z` |
| AliasPattern.AliasClassCharacterised | index.js:64 | the character class is exactly ASCII letters, digits, hyphen and the six characters `[ \ ] ^ _` backtick |
| AliasPattern.LettersDigitsHyphenAccepted | index.js:63-64 | every non-empty string of ASCII letters, digits and hyphens passes the check |
| AliasPattern.RejectedByOneCharacter | index.js:64 | a single character outside letters, digits, hyphen and the range punctuation makes the whole alias fail |
| AliasPattern.AliasExamples | index.js:64 | `my_site`, `[x]`, `^`, `a-Z-09` pass; the empty string, `my site`, `a.b`, `a/b` fail |
| View.InitialVars | index.js:33-52 | the initial record: no flags set, empty saved fields and message, empty form values, the request's CSRF token |
| View.InitialVarsConsistent | index.js:33-52 | the initial record satisfies the page-record invariant `Consistent` and raises no error |
| View.RenderHome | index.js:124-149 | the handler's record is passed through unchanged; both listings are the row projection `Listing.Project` against the request's base URL, so each keeps length and order, and row `i` has alias `/` + alias, redirect base URL + alias, the same url and visits and a relative creation time |
| CreateLink.HandleCreate | index.js:55-92 | `errorUrl` iff the url is missing, empty or refused by `isURL`; `errorAlias` iff the alias is truthy and fails the check (so never for a missing or empty alias); `addUrl` is called once with the submitted values iff neither flag is set; then `error` with the returned message iff storage returned a truthy error, else `success` iff it reported success, with `urlSaved` the submitted url and `aliasSaved` = protocol + `://` + host + `/` + returned alias; the form values are echoed iff some error flag is set, otherwise stay `''`; the result satisfies `Consistent` |
| Redirect.LookupKey | index.js:111 | `substr(1)`: the path is its first character followed by the key; the empty path gives the empty key |
| Redirect.KeyOfShortPath | index.js:111 | the key of `/` + alias is the alias |
| Redirect.ErrorVars | index.js:103-118 | the initial record with `error` set and the given message: no success or field flags, empty saved fields, form values `''`, the request's CSRF token; consistent when the message is non-empty |
| Redirect.Resolve | index.js:100-122 | a missing or empty path renders the invalid-alias page with no lookup; otherwise `path[1..]` is looked up, and the answer is a redirect to the stored url iff the lookup's error is falsy, else the error page (without listings) carrying that error as message |
| Redirect.ListedLinkResolves | index.js:131-135 | the path shown for listing row `i` makes the redirect handler look up exactly that row's alias, and the row's redirect URL is the base URL followed by that key |
| Listing.BaseUrl | index.js:131 | the base URL is the protocol, `://`, the host and a trailing `/`, in that order |
| Listing.ToDisplay | index.js:133-139 | one display row: alias is `/` followed by the stored alias, redirect is the base URL followed by the stored alias, url and visits copied, creation time kept as `FromNow(createdAt)` |
| Listing.Project | index.js:133-146 | same length and order as the stored rows; row `i` has alias `/` + alias, redirect base URL + alias, the same url and visits, and its creation time formatted relative to now |
| Listing.ProjectDistributes | index.js:133-146 | projecting a concatenation of row sequences is the concatenation of their projections |

## Left out

- Express routing, `body-parser`, the CSRF middleware and its 403 handler (index.js:19-31), `res.render` / `res.redirect` as effects: the model returns which response the handler chooses.
- The `GET /` handler (index.js:95-97): it only renders `InitialVars` through `renderHome`.
- Redirect.Resolve: when the path is missing or empty the source renders the invalid-alias page but does not return, and goes on to call `substr(1)` and look the path up; that continuation (a crash on `undefined`, a second response on `''`) is not modelled.
- The storage layer (`addUrl`, `getUrlFromAlias`, `getLatest`, `getMostViewed`, `init`): alias uniqueness, visit counting and the latest / most-viewed ordering are not visible in this code, so storage results are inputs.
- `isURL`: its source is not available, so it is an arbitrary predicate.
- `moment(createdAt).fromNow()`: clock- and locale-dependent; kept as the symbolic value `FromNow(createdAt)`.
- Body fields that `body-parser` may turn into arrays or objects, and a missing `Host` header: fields are modelled as `undefined` or a string.
- `substr(1)` works on UTF-16 code units; the model drops one character, which differs only for a path starting with a character outside the Basic Multilingual Plane.
- `startApp`, the database connection, `app.listen` and all async scheduling; a rejected storage promise is not modelled.
