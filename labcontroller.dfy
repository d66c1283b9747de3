/**
 * The JupyterLab Controller client: the images the controller reports, the
 * lookup of an image by reference, and the errors of each query.
 */
module LabController {

  import opened Wrappers
  import opened Strings

  /** An image as the controller describes it. */
  datatype JupyterImage = JupyterImage(
    reference: string,
    name: string,
    digest: Option<string>,
    tag: string,
    size: Option<int>,
    prepulled: bool)

  /** `underscore_to_dash`: every "_" becomes "-", and nothing else changes. */
  function UnderscoreToDash(x: string): (r: string)
    ensures |r| == |x|
    ensures forall k :: 0 <= k < |x| ==> r[k] == (if x[k] == '_' then '-' else x[k])
    ensures '_' !in r
  {
    ReplaceChar(x, '_', '-')
  }

  /** Converting twice is converting once, and a name without "_" is its own alias. */
  lemma UnderscoreToDashIdempotent(x: string)
    ensures UnderscoreToDash(UnderscoreToDash(x)) == UnderscoreToDash(x)
    ensures '_' !in x ==> UnderscoreToDash(x) == x
  {
    var once := UnderscoreToDash(x);
    assert forall k :: 0 <= k < |once| ==> once[k] != '_';
    assert UnderscoreToDash(once) == once;
  }

  /** The body of the images listing: the named images and the list of all images. */
  datatype LabControllerImages = LabControllerImages(
    recommended: Option<JupyterImage>,
    latestWeekly: Option<JupyterImage>,
    latestDaily: Option<JupyterImage>,
    latestRelease: Option<JupyterImage>,
    all: seq<JupyterImage>)

  /** The first image of `images` whose reference is `reference`. */
  function FindByReference(images: seq<JupyterImage>, reference: string): (r: Option<nat>)
    ensures r.Some? ==> r.value < |images| && images[r.value].reference == reference
    ensures r.Some? ==> forall k :: 0 <= k < r.value ==> images[k].reference != reference
    ensures r.None? <==> forall k :: 0 <= k < |images| ==> images[k].reference != reference
  {
    if |images| == 0 then None
    else if images[0].reference == reference then Some(0)
    else
      var rest := FindByReference(images[1..], reference);
      if rest.Some? then Some(rest.value + 1) else None
  }

  /**
   * `LabControllerImages.get_by_reference`: the first image in `all` with the
   * reference, or `None` when no image has it.
   */
  function GetByReference(images: LabControllerImages, reference: string): (r: Option<JupyterImage>)
    ensures r.Some? ==> r.value.reference == reference
    ensures r.Some? ==> exists i :: 0 <= i < |images.all| && images.all[i] == r.value
                          && forall k :: 0 <= k < i ==> images.all[k].reference != reference
    ensures r.None? <==> forall k :: 0 <= k < |images.all| ==> images.all[k].reference != reference
  {
    var i := FindByReference(images.all, reference);
    if i.Some? then Some(images.all[i.value]) else None
  }

  /** `LabControllerError`. */
  datatype LabControllerError = LabControllerError(message: string)

  /** The controller's reply to the images request: status, reason, and the body read as a listing or why it is not one. */
  datatype ImagesResponse = ImagesResponse(status: int, reason: string, body: Result<LabControllerImages, string>)

  /** `_get_images`: the listing, for a 200 reply whose body is a valid listing. */
  function GetImages(response: ImagesResponse): (r: Result<LabControllerImages, LabControllerError>)
    ensures r.Ok? <==> response.status == 200 && response.body.Ok?
    ensures r.Ok? ==> r.value == response.body.value
    ensures response.status != 200 ==>
      r == Err(LabControllerError("Cannot get image status: " + IntToString(response.status) + " " + response.reason))
    ensures response.status == 200 && response.body.Err? ==>
      r == Err(LabControllerError("Invalid response from JupyterLab Controller: " + response.body.error))
  {
    if response.status != 200 then
      Err(LabControllerError("Cannot get image status: " + IntToString(response.status) + " " + response.reason))
    else if response.body.Err? then
      Err(LabControllerError("Invalid response from JupyterLab Controller: " + response.body.error))
    else Ok(response.body.value)
  }

  /** The client's `get_latest_weekly`: the listing's latest weekly image, an error when it has none. */
  function GetLatestWeekly(response: ImagesResponse): (r: Result<JupyterImage, LabControllerError>)
    ensures r.Ok? <==> GetImages(response).Ok? && GetImages(response).value.latestWeekly.Some?
    ensures r.Ok? ==> r.value == GetImages(response).value.latestWeekly.value
    ensures GetImages(response).Ok? && GetImages(response).value.latestWeekly.None? ==>
      r == Err(LabControllerError("No weekly image found."))
  {
    var images :- GetImages(response);
    if images.latestWeekly.None? then Err(LabControllerError("No weekly image found."))
    else Ok(images.latestWeekly.value)
  }

  /** The client's `get_recommended`: the listing's recommended image, an error when it has none. */
  function GetRecommended(response: ImagesResponse): (r: Result<JupyterImage, LabControllerError>)
    ensures r.Ok? <==> GetImages(response).Ok? && GetImages(response).value.recommended.Some?
    ensures r.Ok? ==> r.value == GetImages(response).value.recommended.value
    ensures GetImages(response).Ok? && GetImages(response).value.recommended.None? ==>
      r == Err(LabControllerError("No recommended image found."))
  {
    var images :- GetImages(response);
    if images.recommended.None? then Err(LabControllerError("No recommended image found."))
    else Ok(images.recommended.value)
  }

  /** The client's `get_by_reference`: the listing's image with the reference, an error when there is none. */
  function ClientGetByReference(response: ImagesResponse, reference: string): (r: Result<JupyterImage, LabControllerError>)
    ensures r.Ok? ==> r.value.reference == reference
    ensures r.Ok? <==> (GetImages(response).Ok? &&
                        exists k :: 0 <= k < |GetImages(response).value.all|
                                    && GetImages(response).value.all[k].reference == reference)
    ensures GetImages(response).Ok? && GetByReference(GetImages(response).value, reference).None? ==>
      r == Err(LabControllerError("No image with reference " + reference + " found."))
  {
    var images :- GetImages(response);
    var image := GetByReference(images, reference);
    if image.None? then Err(LabControllerError("No image with reference " + reference + " found."))
    else Ok(image.value)
  }
}
