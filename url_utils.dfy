/** `UrlUtilsService.cleanUrl`: drop the query of a URL, that is everything
    from the first `?` on (the query delimiter of section 3.4 of RFC 3986). */
module UrlUtils {
  import Text

  function CleanUrl(url: string): (r: string)
    ensures r <= url
    ensures '?' !in r
    ensures '?' !in url ==> r == url
    ensures '?' in url ==> |r| < |url| && url[|r|] == '?'
  {
    Text.FirstField(url, '?')
  }

  /** Cleaning twice is cleaning once. */
  lemma CleanUrlIdempotent(url: string)
    ensures CleanUrl(CleanUrl(url)) == CleanUrl(url)
  {
  }
}
