/** A row of the `products` table as the storefront pages read it. A column
    that is null or empty is the empty string here; `image_urls` keeps the
    difference between null (`None`) and an empty list. */
module ProductRows {
  import opened Maybe

  datatype Row = Row(
    id: string, name: string, price: int, description: string, category: string,
    thumbnailUrl: string, imageUrls: Option<seq<string>>)

  /** `thumbnail_url || (image_urls && image_urls.length > 0 ? image_urls[0] : '')`. */
  function ImageUrlOf(p: Row): (r: string)
    ensures p.thumbnailUrl != "" ==> r == p.thumbnailUrl
    ensures p.thumbnailUrl == "" && p.imageUrls.Some? && |p.imageUrls.value| > 0 ==> r == p.imageUrls.value[0]
    ensures p.thumbnailUrl == "" && (p.imageUrls.None? || p.imageUrls.value == []) ==> r == ""
  {
    if p.thumbnailUrl != "" then p.thumbnailUrl
    else match p.imageUrls
      case Some(urls) => if |urls| > 0 then urls[0] else ""
      case None => ""
  }

  /** The image shown is one of the row's own URLs, or nothing. */
  lemma ImageUrlIsStored(p: Row)
    ensures var u := ImageUrlOf(p);
      u == "" || u == p.thumbnailUrl || (p.imageUrls.Some? && u in p.imageUrls.value)
  {
  }
}
