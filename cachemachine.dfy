/**
 * The cachemachine client: the image record, its text form, how it is read
 * from the service's listing or from a Docker reference, and the image
 * selections.
 */
module Cachemachine {

  import opened Wrappers
  import opened Strings

  /** An image as cachemachine describes it. */
  datatype JupyterImage = JupyterImage(reference: string, name: string, digest: Option<string>)

  /** The digest as `__str__` writes it: the empty text when there is none. */
  function DigestText(image: JupyterImage): string
  {
    if image.digest.Some? then image.digest.value else ""
  }

  /** `__str__`: reference, name and digest joined with "|". */
  function ToString(image: JupyterImage): (s: string)
    ensures s == image.reference + "|" + image.name + "|" + DigestText(image)
  {
    var parts := [image.reference, image.name, DigestText(image)];
    assert parts[1..][1..] == [DigestText(image)];
    assert Join(parts[1..], '|') == image.name + "|" + DigestText(image);
    Join(parts, '|')
  }

  /** When no part holds a "|", the text form splits back into reference, name and digest. */
  lemma ToStringSplits(image: JupyterImage)
    requires '|' !in image.reference && '|' !in image.name && '|' !in DigestText(image)
    ensures Split(ToString(image), '|') == [image.reference, image.name, DigestText(image)]
  {
    SplitJoin([image.reference, image.name, DigestText(image)], '|');
  }

  /** The error kinds of this client. */
  datatype ImageError =
    | CachemachineError(message: string)
    | KeyError(key: string)
    | IndexError

  /** `from_dict`: `image_url`, `name` and `image_hash` become reference, name and digest. */
  function FromDict(data: map<string, string>): (r: Result<JupyterImage, ImageError>)
    ensures r.Ok? <==> "image_url" in data && "name" in data && "image_hash" in data
    ensures r.Ok? ==> r.value == JupyterImage(data["image_url"], data["name"], Some(data["image_hash"]))
    // the key reported is the first of the three, in reading order, that is missing
    ensures r.Err? ==> r.error.KeyError? && r.error.key !in data
    ensures r.Err? && r.error.key != "image_url" ==> "image_url" in data && (r.error.key == "name" || "name" in data)
  {
    if "image_url" !in data then Err(KeyError("image_url"))
    else if "name" !in data then Err(KeyError("name"))
    else if "image_hash" !in data then Err(KeyError("image_hash"))
    else Ok(JupyterImage(data["image_url"], data["name"], Some(data["image_hash"])))
  }

  /**
   * `from_reference`: the name is the text after the last ":" of the
   * reference and the digest is empty; a reference without ":" has no
   * second piece and fails with `IndexError`.
   */
  function FromReference(reference: string): (r: Result<JupyterImage, ImageError>)
    ensures r.Ok? <==> ':' in reference
    ensures r.Err? ==> r.error == IndexError
    ensures r.Ok? ==> r.value.reference == reference && r.value.digest == Some("")
    ensures r.Ok? ==> ':' !in r.value.name && EndsWith(reference, [':'] + r.value.name)
  {
    if ':' !in reference then Err(IndexError)
    else
      var pieces := Split(reference, ':');
      var name := pieces[|pieces| - 1];
      LastPieceIsSuffix(reference, ':');
      SplitNoSeparator(reference, ':');
      Ok(JupyterImage(reference, name, Some("")))
  }

  /** The last piece of a split holding the separator follows the separator's last occurrence. */
  lemma {:induction false} LastPieceIsSuffix(s: string, c: char)
    requires c in s
    ensures |Split(s, c)| >= 2
    ensures EndsWith(s, [c] + Split(s, c)[|Split(s, c)| - 1])
    decreases |s|
  {
    var rest := Split(s[1..], c);
    if c in s[1..] {
      LastPieceIsSuffix(s[1..], c);
      var last := rest[|rest| - 1];
      LastPieceOfTail(s, c);
      EndsWithTail(s, [c] + last);
    } else {
      assert s[0] == c;
      NoSeparatorOnePiece(s[1..], c);
      assert Split(s, c) == [""] + rest;
      assert s == [c] + s[1..];
    }
  }

  lemma LastPieceOfTail(s: string, c: char)
    requires |s| > 0 && |Split(s[1..], c)| >= 2
    ensures |Split(s, c)| >= 2
    ensures Split(s, c)[|Split(s, c)| - 1] == Split(s[1..], c)[|Split(s[1..], c)| - 1]
  {
  }

  lemma EndsWithTail(s: string, t: string)
    requires |s| > 0 && EndsWith(s[1..], t)
    ensures EndsWith(s, t)
  {
    assert s[|s| - |t|..] == s[1..][|s[1..]| - |t|..];
  }

  lemma {:induction false} NoSeparatorOnePiece(s: string, c: char)
    requires c !in s
    ensures Split(s, c) == [s]
    decreases |s|
  {
    if |s| > 0 {
      NoSeparatorOnePiece(s[1..], c);
      assert s == [s[0]] + s[1..];
    }
  }

  /** A reference made of a repository and a tag free of ":" names the image by its tag. */
  lemma FromReferenceTag(repository: string, tag: string)
    requires ':' !in tag
    ensures FromReference(repository + ":" + tag).Ok?
    ensures FromReference(repository + ":" + tag).value.name == tag
  {
    var reference := repository + ":" + tag;
    assert reference[|repository|] == ':';
    var r := FromReference(reference);
    var name := r.value.name;
    // the last ":" of the reference is the one before the tag
    var p := |reference| - |name| - 1;
    assert reference[p] == ':';
    assert forall q :: |repository| < q < |reference| ==> reference[q] == tag[q - |repository| - 1];
    assert forall q :: p < q < |reference| ==> reference[q] == name[q - p - 1];
    assert |name| == |tag|;
    assert name == reference[|reference| - |name|..];
    assert tag == reference[|reference| - |tag|..];
  }

  /** The first image whose name starts with "Weekly". */
  function FirstWeekly(images: seq<JupyterImage>): (r: Option<nat>)
    ensures r.Some? ==> r.value < |images| && StartsWith(images[r.value].name, "Weekly")
    ensures r.Some? ==> forall k :: 0 <= k < r.value ==> !StartsWith(images[k].name, "Weekly")
    ensures r.None? <==> forall k :: 0 <= k < |images| ==> !StartsWith(images[k].name, "Weekly")
  {
    if |images| == 0 then None
    else if StartsWith(images[0].name, "Weekly") then Some(0)
    else
      var rest := FirstWeekly(images[1..]);
      if rest.Some? then Some(rest.value + 1) else None
  }

  /** The service's reply: status, reason, and the `images` entries of the body, or why the body has none. */
  datatype ImagesResponse = ImagesResponse(status: int, reason: string, body: Result<seq<map<string, string>>, string>)

  /** Read every entry of the listing; the first entry that lacks a key makes the whole listing invalid. */
  function FromDicts(entries: seq<map<string, string>>): (r: Result<seq<JupyterImage>, ImageError>)
    ensures r.Ok? <==> forall k :: 0 <= k < |entries| ==> FromDict(entries[k]).Ok?
    ensures r.Ok? ==> |r.value| == |entries| && forall k :: 0 <= k < |entries| ==> r.value[k] == FromDict(entries[k]).value
    ensures r.Err? ==> exists k :: 0 <= k < |entries| && FromDict(entries[k]) == Err(r.error)
    ensures r.Err? ==> r.error.KeyError?
  {
    if |entries| == 0 then Ok([])
    else
      var first :- FromDict(entries[0]);
      var rest :- FromDicts(entries[1..]);
      Ok([first] + rest)
  }

  /** `_get_images`: the listing's images, for a 200 reply whose body lists valid entries. */
  function GetImages(response: ImagesResponse): (r: Result<seq<JupyterImage>, ImageError>)
    ensures r.Ok? <==> response.status == 200 && response.body.Ok? && FromDicts(response.body.value).Ok?
    ensures r.Ok? ==> r.value == FromDicts(response.body.value).value
    ensures r.Err? ==> r.error.CachemachineError?
    ensures response.status != 200 ==>
      r == Err(CachemachineError("Cannot get image status from cachemachine: " + IntToString(response.status) + " " + response.reason))
    // a body that cannot be read, or an entry without one of its keys, reports `str()` of the exception;
    // for a missing key that is the key in single quotes
    ensures response.status == 200 && response.body.Err? ==>
      r == Err(CachemachineError("Invalid response from cachemachine: " + response.body.error))
    ensures response.status == 200 && response.body.Ok? && FromDicts(response.body.value).Err? ==>
      r == Err(CachemachineError("Invalid response from cachemachine: '" + FromDicts(response.body.value).error.key + "'"))
  {
    if response.status != 200 then
      Err(CachemachineError("Cannot get image status from cachemachine: " + IntToString(response.status) + " " + response.reason))
    else if response.body.Err? then
      Err(CachemachineError("Invalid response from cachemachine: " + response.body.error))
    else
      var images := FromDicts(response.body.value);
      if images.Err? then Err(CachemachineError("Invalid response from cachemachine: '" + images.error.key + "'"))
      else Ok(images.value)
  }

  /** `get_latest_weekly`: the first image whose name starts with "Weekly", an error when none does. */
  function GetLatestWeekly(response: ImagesResponse): (r: Result<JupyterImage, ImageError>)
    ensures r.Ok? <==> GetImages(response).Ok? && FirstWeekly(GetImages(response).value).Some?
    ensures r.Ok? ==> r.value == GetImages(response).value[FirstWeekly(GetImages(response).value).value]
    ensures r.Ok? ==> GetImages(response).Ok? && StartsWith(r.value.name, "Weekly")
    ensures r.Ok? ==> exists i :: 0 <= i < |GetImages(response).value| && GetImages(response).value[i] == r.value
                        && forall k :: 0 <= k < i ==> !StartsWith(GetImages(response).value[k].name, "Weekly")
    ensures GetImages(response).Ok? && FirstWeekly(GetImages(response).value).None? ==>
      r == Err(CachemachineError("No weekly versions found"))
    ensures r.Err? ==> r.error.CachemachineError?
  {
    var images :- GetImages(response);
    var i := FirstWeekly(images);
    if i.None? then Err(CachemachineError("No weekly versions found")) else Ok(images[i.value])
  }

  /** `get_recommended`: the first image of the listing; an empty listing fails with `IndexError`. */
  function GetRecommended(response: ImagesResponse): (r: Result<JupyterImage, ImageError>)
    ensures r.Ok? <==> GetImages(response).Ok? && |GetImages(response).value| > 0
    ensures r.Ok? ==> r.value == GetImages(response).value[0]
    ensures GetImages(response).Ok? && |GetImages(response).value| == 0 ==> r == Err(IndexError)
  {
    var images :- GetImages(response);
    if |images| == 0 then Err(IndexError) else Ok(images[0])
  }
}
