/** Photo search used for free scene images: the first hit's regular URL, else its small URL. */
module Unsplash {
  import opened Common
  import opened Text

  /** The access key from the environment; unset and empty both mean "not configured". */
  predicate IsConfigured(accessKey: Option<string>) {
    accessKey.Some? && accessKey.value != []
  }

  datatype PhotoUrls = PhotoUrls(regular: Option<string>, small: Option<string>)
  datatype Photo = Photo(urls: Option<PhotoUrls>)

  /** How the search request ended; `results` is absent when the body has no such array. */
  datatype SearchReply =
    | SearchThrew
    | SearchNotOk
    | SearchOk(results: Option<seq<Photo>>)

  /** The term sent: the trimmed query cut to 100 characters, or "scene" when that is empty. */
  function SearchTerm(query: string): (q: string)
    ensures q != [] && |q| <= 100
    ensures AllSpace(query) ==> q == "scene"
    ensures !AllSpace(query) ==> q == Take(Trim(query), 100) && !IsSpace(q[0])
  {
    var t := Take(Trim(query), 100);
    if t == [] then "scene" else t
  }

  /** `first?.urls?.regular ?? first?.urls?.small ?? null`: an empty string is kept, only absence falls through. */
  function FirstPhotoUrl(results: Option<seq<Photo>>): (r: Option<string>)
    ensures r.Some? <==> (results.Some? && results.value != [] && results.value[0].urls.Some?
      && (results.value[0].urls.value.regular.Some? || results.value[0].urls.value.small.Some?))
    ensures r.Some? && results.value[0].urls.value.regular.Some? ==> r == results.value[0].urls.value.regular
    ensures r.Some? && results.value[0].urls.value.regular.None? ==> r == results.value[0].urls.value.small
  {
    if results.None? || results.value == [] then None
    else
      match results.value[0].urls
      case None => None
      case Some(u) => if u.regular.Some? then u.regular else u.small
  }

  /** `getPhotoUrlByQuery`: nothing without a key, on a failed or thrown request, or without a usable hit. */
  function PhotoUrlByQuery(query: string, accessKey: Option<string>, search: string -> SearchReply): (r: Option<string>)
    ensures r.Some? ==> IsConfigured(accessKey) && search(SearchTerm(query)).SearchOk?
    ensures IsConfigured(accessKey) && search(SearchTerm(query)).SearchOk? ==>
      r == FirstPhotoUrl(search(SearchTerm(query)).results)
  {
    if !IsConfigured(accessKey) then None
    else
      match search(SearchTerm(query))
      case SearchOk(results) => FirstPhotoUrl(results)
      case _ => None
  }
}
