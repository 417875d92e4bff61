/**
 * The trainer-profile service's own logic: every profile it returns has its
 * two image URLs made absolute against the API host, and every failure is
 * turned into one error message. The HTTP calls themselves are not modelled.
 */
module TrainerService {
  import opened Common
  import opened Http

  /** A trainer profile as the API returns it. */
  datatype TrainerProfileResponse = TrainerProfileResponse(
    id: int,
    updatedAt: Option<string>,
    createdAt: string,
    userId: string,
    userName: string,
    handle: string,
    bio: string,
    coverImageUrl: Option<string>,
    videoIntroUrl: Option<string>,
    brandingColors: Option<string>,
    isVerified: bool,
    verifiedAt: Option<string>,
    ratingAverage: real,
    totalClients: int,
    yearsExperience: int,
    statusImageUrl: Option<string>,
    statusDescription: Option<string>)

  /** The host relative image paths are resolved against. */
  const ApiHost := "https://gymunity-fp-apis.runasp.net/"

  /**
   * `resolveImageUrl`: no URL for a missing or empty one, an absolute
   * (`http`-prefixed) URL unchanged, anything else prefixed with the host
   * as it stands (no slash is added or removed).
   */
  function ResolveImageUrl(url: Option<string>): (r: Option<string>)
    ensures !PresentText(url) ==> r.None?
    ensures PresentText(url) && StartsWith(url.value, "http") ==> r == url
    ensures PresentText(url) && !StartsWith(url.value, "http") ==> r == Some(ApiHost + url.value)
    ensures r.Some? ==> StartsWith(r.value, "http")
  {
    if !PresentText(url) then None
    else if StartsWith(url.value, "http") then url
    else
      assert forall i :: 0 <= i < 4 ==> (ApiHost + url.value)[i] == ApiHost[i] == "http"[i];
      Some(ApiHost + url.value)
  }

  /** Resolving a resolved URL changes nothing, because the host itself starts with `http`. */
  lemma ResolveImageUrlIdempotent(url: Option<string>)
    ensures ResolveImageUrl(ResolveImageUrl(url)) == ResolveImageUrl(url)
  {
  }

  /** `resolveImageUrls`: the two image URLs are resolved and every other field is kept. */
  function ResolveImageUrls(p: TrainerProfileResponse): (r: TrainerProfileResponse)
    ensures r.coverImageUrl == ResolveImageUrl(p.coverImageUrl)
    ensures r.statusImageUrl == ResolveImageUrl(p.statusImageUrl)
    ensures r.(coverImageUrl := p.coverImageUrl, statusImageUrl := p.statusImageUrl) == p
  {
    p.(coverImageUrl := ResolveImageUrl(p.coverImageUrl), statusImageUrl := ResolveImageUrl(p.statusImageUrl))
  }

  lemma ResolveImageUrlsIdempotent(p: TrainerProfileResponse)
    ensures ResolveImageUrls(ResolveImageUrls(p)) == ResolveImageUrls(p)
  {
    ResolveImageUrlIdempotent(p.coverImageUrl);
    ResolveImageUrlIdempotent(p.statusImageUrl);
  }

  const UnexpectedError := "An unexpected error occurred"
  const NetworkError := "Network error. Please check your connection."

  /**
   * The message of the error `handleError` rethrows. With a body, its
   * message wins, else its `errors` array joined with `, `, else the
   * default; with no body, status 0 is a network error.
   */
  function HandleError(e: ErrorResponse): (msg: string)
    ensures BodyPresent(e.body) && PresentText(BodyMessage(e.body)) ==> msg == BodyMessage(e.body).value
    ensures BodyPresent(e.body) && !PresentText(BodyMessage(e.body)) && e.body.JsonBody? && e.body.errors.Some? ==>
      msg == Join(e.body.errors.value, ", ")
    ensures BodyPresent(e.body) && !PresentText(BodyMessage(e.body)) && !(e.body.JsonBody? && e.body.errors.Some?) ==>
      msg == UnexpectedError
    ensures !BodyPresent(e.body) ==> msg == (if e.status == 0 then NetworkError else UnexpectedError)
  {
    if BodyPresent(e.body) then
      if PresentText(BodyMessage(e.body)) then BodyMessage(e.body).value
      else if e.body.JsonBody? && e.body.errors.Some? then Join(e.body.errors.value, ", ")
      else UnexpectedError
    else if e.status == 0 then NetworkError
    else UnexpectedError
  }

  /** The status only matters when there is no body: a body's message is used whatever the status. */
  lemma HandleErrorIgnoresStatusWithBody(e: ErrorResponse, status: int)
    requires BodyPresent(e.body)
    ensures HandleError(e.(status := status)) == HandleError(e)
  {
  }

  /** The message is never empty unless the server sent an empty message list or empty entries. */
  lemma HandleErrorNonEmpty(e: ErrorResponse)
    requires !(e.body.JsonBody? && e.body.errors.Some?)
    ensures HandleError(e) != ""
  {
  }
}
