/** The `renderHome` projection of stored links into the rows of the
    "latest" and "most viewed" listings. */
module Listing {

  /** A timestamp as the storage layer returns it. */
  type Instant = int

  /** `moment(createdAt).fromNow()`: a clock- and locale-dependent phrase,
      kept symbolic. */
  datatype RelativeTime = FromNow(createdAt: Instant)

  /** A row as returned by `db.getLatest()` or `db.getMostViewed()`. */
  datatype StoredLink = StoredLink(alias: string, url: string, visits: int, createdAt: Instant)

  /** A row as handed to the page template. */
  datatype DisplayRow = DisplayRow(alias: string, redirect: string, url: string, visits: int, createdAt: RelativeTime)

  /** `req.protocol + '://' + req.headers.host + '/'`. */
  function BaseUrl(protocol: string, host: string): (b: string)
    ensures |b| == |protocol| + |host| + 4 && b[|b| - 1] == '/'
    ensures b[..|protocol|] == protocol && b[|protocol|..|protocol| + 3] == "://"
    ensures b[|protocol| + 3..|b| - 1] == host
  {
    protocol + "://" + host + "/"
  }

  /** The callback given to `.map`. */
  function ToDisplay(baseUrl: string, row: StoredLink): (d: DisplayRow)
    ensures |d.alias| == |row.alias| + 1 && d.alias[0] == '/' && d.alias[1..] == row.alias
    ensures |d.redirect| == |baseUrl| + |row.alias|
    ensures d.redirect[..|baseUrl|] == baseUrl && d.redirect[|baseUrl|..] == row.alias
    ensures d.url == row.url && d.visits == row.visits && d.createdAt == FromNow(row.createdAt)
  {
    DisplayRow("/" + row.alias, baseUrl + row.alias, row.url, row.visits, FromNow(row.createdAt))
  }

  /** `rows.map(...)`: one display row per stored row, in the same order;
      the alias is prefixed with `/`, the redirect is the base URL followed
      by the alias, and the url and visit count are copied. */
  function Project(baseUrl: string, rows: seq<StoredLink>): (r: seq<DisplayRow>)
    ensures |r| == |rows|
    ensures forall i :: 0 <= i < |rows| ==>
      && r[i].alias == "/" + rows[i].alias
      && r[i].redirect == baseUrl + rows[i].alias
      && r[i].url == rows[i].url
      && r[i].visits == rows[i].visits
      && r[i].createdAt == FromNow(rows[i].createdAt)
  {
    if rows == [] then [] else [ToDisplay(baseUrl, rows[0])] + Project(baseUrl, rows[1..])
  }

  /** The projection works row by row: projecting a concatenation is the
      concatenation of the projections, so order is kept. */
  lemma ProjectDistributes(baseUrl: string, xs: seq<StoredLink>, ys: seq<StoredLink>)
    ensures Project(baseUrl, xs + ys) == Project(baseUrl, xs) + Project(baseUrl, ys)
  {
  }
}
