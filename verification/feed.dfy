/** The normalised feed item shared by the feed reader, the change detector,
    the e-mail builders and the dashboard. */
module Feed {

  /** One recall notice. `pubDateISO` is "" where the source stores `null`
      (an unparseable date); the distributor fields are filled in only by
      enrichment and are empty on items straight from the feed. */
  datatype FeedItem = FeedItem(
    id: string,
    title: string,
    link: string,
    pubDate: string,
    pubDateISO: string,
    pubDateTs: int,
    descriptionHtml: string,
    enclosureUrl: string,
    distributeursRaw: string,
    distributeursList: seq<string>,
    motifRaw: string)

  /** What the detail-page scraper returns for one item. */
  datatype DistributorInfo = DistributorInfo(distributeursRaw: string, distributeursList: seq<string>)

  /** `{ ...item, ...info }`: the two scraped fields overwrite the item's. */
  function WithInfo(item: FeedItem, info: DistributorInfo): (r: FeedItem)
    ensures r.distributeursRaw == info.distributeursRaw
    ensures r.distributeursList == info.distributeursList
    ensures r.(distributeursRaw := item.distributeursRaw, distributeursList := item.distributeursList) == item
  {
    item.(distributeursRaw := info.distributeursRaw, distributeursList := info.distributeursList)
  }
}
