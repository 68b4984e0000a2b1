/** `GET /api/detail?url=…` of app/api/detail/route.js: the same fiche
    reading as lib/distributeurs.js, answered over HTTP instead of thrown. */
module Detail {
  import opened Wrappers
  import opened Strings
  import opened Feed
  import opened Distributeurs

  datatype DetailResponse =
    | BadUrl
    | UpstreamFailed(error: string)
    | Found(info: DistributorInfo)

  function StatusOf(r: DetailResponse): (status: nat)
    ensures status == 200 <==> r.Found?
    ensures r.BadUrl? ==> status == 400
    ensures r.UpstreamFailed? ==> status == 502
  {
    match r
    case BadUrl => 400
    case UpstreamFailed(_) => 502
    case Found(_) => 200
  }

  /** `searchParams.get("url") || ""`. */
  function UrlParam(query: Option<string>): (u: string)
    ensures query.None? ==> u == ""
    ensures query.Some? ==> u == query.value
  {
    match query
    case None => ""
    case Some(v) => v
  }

  /** `GET`: a URL off the allow-list (a missing one included) is 400
      before anything is fetched; a failed fetch is 502 with its status;
      otherwise 200 with the distributor text of the last "Distributeurs"
      heading and its split list: what `fetchDistributeurInfo` returns or
      throws for the same page. */
  method GetDetail(site: DetailSite, query: Option<string>, parseUrl: string -> Option<ParsedUrl>,
                   dtsOf: string -> seq<DtEntry>)
    returns (resp: DetailResponse)
    modifies site
    ensures var url := UrlParam(query);
      && (!IsAllowedUrl(url, parseUrl) ==> resp == BadUrl && site.fetched == old(site.fetched))
      && (IsAllowedUrl(url, parseUrl) ==> site.fetched == old(site.fetched) + [url])
      && (IsAllowedUrl(url, parseUrl) ==>
            var lib := DistributeurInfoOf(site.pageAt(url), dtsOf);
            resp == if lib.Err? then UpstreamFailed(lib.error) else Found(lib.value))
  {
    var url := UrlParam(query);
    if !IsAllowedUrl(url, parseUrl) {
      return BadUrl;
    }
    var res := site.Fetch(url);
    if !res.ok {
      return UpstreamFailed(HttpStatusError(res.status));
    }
    var distributeursRaw := ScanDistributeurs(dtsOf(res.html));
    var distributeursList := NormalizeSplitList(distributeursRaw);
    resp := Found(DistributorInfo(distributeursRaw, distributeursList));
  }
}
