/** The admin product form's image list (src/pages/adminstrator/components/ProductForm.tsx):
    three pieces of state kept side by side, the preview URLs, the files still
    to upload and the index of the preview chosen as thumbnail. A preview
    either is a stored image URL or a `blob:` URL standing for one of the
    pending files; the files are kept in the order of their blob previews. */
module ProductForm {
  import opened Maybe
  import Text
  import opened ProductRows

  /** A file picked in the file input (only its identity matters here). */
  datatype ImageFile = ImageFile(name: string)

  /** The payload sent to the `products` table. The price stays the text of
      the input (its `parseFloat` is not modelled). */
  datatype ProductData = ProductData(
    name: string, priceText: string, description: string, category: string,
    thumbnailUrl: string, imageUrls: seq<string>)

  datatype SubmitOutcome = UploadFailed | NoImages | Save(data: ProductData)

  const MaxImages: nat := 5

  predicate IsBlob(url: string) {
    Text.StartsWith(url, "blob:")
  }

  /** `previews.filter(p => p.startsWith('blob:')).length`. */
  function BlobCount(s: seq<string>): (r: nat)
    ensures r <= |s|
  {
    if s == [] then 0 else (if IsBlob(s[0]) then 1 else 0) + BlobCount(s[1..])
  }

  /** `previews.filter(p => !p.startsWith('blob:'))`. */
  function StoredUrls(s: seq<string>): (r: seq<string>)
    ensures |r| + BlobCount(s) == |s|
    ensures forall u :: u in r <==> u in s && !IsBlob(u)
  {
    if s == [] then []
    else if IsBlob(s[0]) then StoredUrls(s[1..])
    else [s[0]] + StoredUrls(s[1..])
  }

  /** `.filter(Boolean)` on a list of URLs: the empty ones are dropped. */
  function NonEmpty(s: seq<string>): (r: seq<string>)
    ensures |r| <= |s|
    ensures forall u :: u in r <==> u in s && u != ""
  {
    if s == [] then []
    else if s[0] == "" then NonEmpty(s[1..])
    else [s[0]] + NonEmpty(s[1..])
  }

  /** `list.filter((_, i) => i !== k)`: drop position `k`, if there is one. */
  function WithoutIndex<T>(s: seq<T>, k: int): (r: seq<T>)
    ensures 0 <= k < |s| ==> |r| == |s| - 1
    ensures 0 <= k < |s| ==> forall j :: 0 <= j < |r| ==> r[j] == (if j < k then s[j] else s[j + 1])
    ensures !(0 <= k < |s|) ==> r == s
  {
    if 0 <= k < |s| then s[..k] + s[k + 1..] else s
  }

  /** The thumbnail index after preview `i` is removed. */
  function ThumbnailAfterRemoval(t: int, i: int): int {
    if t == i then 0 else if t > i then t - 1 else t
  }

  /** The previews of the edit-mode init: the thumbnail, then `image_urls`
      (an empty list when null), empty entries dropped. */
  function EditPreviews(p: Row): seq<string> {
    NonEmpty([p.thumbnailUrl] + (match p.imageUrls case Some(u) => u case None => []))
  }

  /** Stored URLs come before every blob URL. */
  ghost predicate BlobsLast(s: seq<string>) {
    forall i, j :: 0 <= i < j < |s| && IsBlob(s[i]) ==> IsBlob(s[j])
  }

  /** The thumbnail index names a preview, or is 0. */
  ghost predicate ThumbnailInRange(t: int, previews: seq<string>) {
    t == 0 || 0 <= t < |previews|
  }

  /** The three fields agree: one pending file per blob preview, blob
      previews after the stored ones, and a thumbnail index in range. */
  ghost predicate Consistent(previews: seq<string>, files: seq<ImageFile>, t: int) {
    |files| == BlobCount(previews) && BlobsLast(previews) && ThumbnailInRange(t, previews)
  }

  /** The URL list built at submit time: the stored previews, then the URLs
      the upload returned for the pending files, in order. */
  function AllImageUrls(previews: seq<string>, uploaded: seq<string>): seq<string> {
    StoredUrls(previews) + uploaded
  }

  /** The URL each preview stands for once the pending files are uploaded: a
      stored preview is itself, the blob preview of rank r (among the blob
      previews) is the r-th uploaded URL. */
  function FinalUrl(previews: seq<string>, uploaded: seq<string>, j: nat): string
    requires j < |previews|
  {
    if IsBlob(previews[j]) then
      var r := BlobCount(previews[..j]);
      if r < |uploaded| then uploaded[r] else ""
    else previews[j]
  }

  // ---------------------------------------------------------------------
  // Lemmas

  lemma {:induction false} BlobCountAppend(a: seq<string>, b: seq<string>)
    ensures BlobCount(a + b) == BlobCount(a) + BlobCount(b)
    ensures StoredUrls(a + b) == StoredUrls(a) + StoredUrls(b)
  {
    if a == [] {
      assert a + b == b;
    } else {
      assert (a + b)[1..] == a[1..] + b;
      BlobCountAppend(a[1..], b);
    }
  }

  lemma {:induction false} NoBlobs(s: seq<string>)
    requires forall j :: 0 <= j < |s| ==> !IsBlob(s[j])
    ensures BlobCount(s) == 0 && StoredUrls(s) == s
  {
    if s != [] {
      NoBlobs(s[1..]);
      assert [s[0]] + s[1..] == s;
    }
  }

  lemma {:induction false} AllBlobs(s: seq<string>)
    requires forall j :: 0 <= j < |s| ==> IsBlob(s[j])
    ensures BlobCount(s) == |s| && StoredUrls(s) == []
  {
    if s != [] {
      AllBlobs(s[1..]);
    }
  }

  /** With blobs last, the previews split into the stored prefix and the blob
      suffix at `StoredCount`. */
  lemma SplitAtStored(s: seq<string>)
    requires BlobsLast(s)
    ensures var m := |StoredUrls(s)|;
      && s[..m] == StoredUrls(s)
      && (forall j :: 0 <= j < m ==> !IsBlob(s[j]))
      && (forall j :: m <= j < |s| ==> IsBlob(s[j]))
  {
    var m := FirstBlob(s);
    assert s == s[..m] + s[m..];
    NoBlobs(s[..m]);
    AllBlobs(s[m..]);
    BlobCountAppend(s[..m], s[m..]);
  }

  /** The position of the first blob preview (|s| when there is none). */
  function FirstBlob(s: seq<string>): (m: nat)
    ensures m <= |s|
    ensures forall j :: 0 <= j < m ==> !IsBlob(s[j])
    ensures m < |s| ==> IsBlob(s[m])
  {
    if s == [] then 0 else if IsBlob(s[0]) then 0 else 1 + FirstBlob(s[1..])
  }

  /** Submit sends, position by position, the image each preview stands for:
      so the URL at the thumbnail index is the starred image. */
  lemma SubmitUrlsMatchPreviews(previews: seq<string>, files: seq<ImageFile>, uploaded: seq<string>)
    requires |files| == BlobCount(previews) && BlobsLast(previews)
    requires |uploaded| == |files|
    ensures var all := AllImageUrls(previews, uploaded);
      |all| == |previews| && forall j :: 0 <= j < |previews| ==> all[j] == FinalUrl(previews, uploaded, j)
  {
    SplitAtStored(previews);
    var m := |StoredUrls(previews)|;
    var all := AllImageUrls(previews, uploaded);
    forall j | 0 <= j < |previews| ensures all[j] == FinalUrl(previews, uploaded, j) {
      if j >= m {
        assert previews[..j] == previews[..m] + previews[m..j];
        BlobCountAppend(previews[..m], previews[m..j]);
        NoBlobs(previews[..m]);
        AllBlobs(previews[m..j]);
      }
    }
  }

  /** After removing preview `i`, the index still names the same image,
      except when the thumbnail itself was removed (then it falls back to 0). */
  lemma ThumbnailFollowsImage(previews: seq<string>, t: int, i: int)
    requires 0 <= i < |previews| && 0 <= t < |previews| && t != i
    ensures var t' := ThumbnailAfterRemoval(t, i);
      0 <= t' < |previews| - 1 && WithoutIndex(previews, i)[t'] == previews[t]
  {
  }

  /** The rank of the removed blob among the blob previews is the index of
      its file: removing both keeps one file per blob preview, in order. */
  lemma {:induction false} RemoveBlobKeepsPairing(previews: seq<string>, i: nat)
    requires i < |previews|
    ensures IsBlob(previews[i]) ==>
      BlobCount(WithoutIndex(previews, i)) == BlobCount(previews) - 1 &&
      BlobCount(previews[..i]) < BlobCount(previews)
    ensures !IsBlob(previews[i]) ==> BlobCount(WithoutIndex(previews, i)) == BlobCount(previews)
  {
    assert previews == previews[..i] + [previews[i]] + previews[i + 1..];
    BlobCountAppend(previews[..i] + [previews[i]], previews[i + 1..]);
    BlobCountAppend(previews[..i], [previews[i]]);
    BlobCountAppend(previews[..i], previews[i + 1..]);
    assert [previews[i]][1..] == [];
  }

  /** removeImage keeps the three fields consistent. */
  lemma RemoveKeepsConsistent(previews: seq<string>, files: seq<ImageFile>, t: int, i: nat)
    requires Consistent(previews, files, t)
    requires i < |previews|
    ensures var files' := if IsBlob(previews[i]) then WithoutIndex(files, BlobCount(previews[..i])) else files;
      Consistent(WithoutIndex(previews, i), files', ThumbnailAfterRemoval(t, i))
  {
    RemoveBlobKeepsPairing(previews, i);
    var p' := WithoutIndex(previews, i);
    forall a, b | 0 <= a < b < |p'| && IsBlob(p'[a]) ensures IsBlob(p'[b]) {
      var a0 := if a < i then a else a + 1;
      var b0 := if b < i then b else b + 1;
      assert p'[a] == previews[a0] && p'[b] == previews[b0];
    }
  }

  /** Adding blob previews for new files keeps the fields consistent. */
  lemma AddKeepsConsistent(previews: seq<string>, files: seq<ImageFile>, t: int,
                           newFiles: seq<ImageFile>, newPreviews: seq<string>)
    requires Consistent(previews, files, t)
    requires |newPreviews| == |newFiles| && forall j :: 0 <= j < |newPreviews| ==> IsBlob(newPreviews[j])
    ensures Consistent(previews + newPreviews, files + newFiles, t)
  {
    BlobCountAppend(previews, newPreviews);
    AllBlobs(newPreviews);
    var s := previews + newPreviews;
    forall a, b | 0 <= a < b < |s| && IsBlob(s[a]) ensures IsBlob(s[b]) {
      if b < |previews| { assert s[a] == previews[a] && s[b] == previews[b]; }
      else { assert s[b] == newPreviews[b - |previews|]; }
    }
  }

  /** Edit-mode init is consistent when no stored URL is a blob URL, and
      keeps the thumbnail first. */
  lemma EditInitConsistent(p: Row)
    requires forall u :: u in EditPreviews(p) ==> !IsBlob(u)
    ensures Consistent(EditPreviews(p), [], 0)
    ensures p.thumbnailUrl != "" ==> EditPreviews(p)[0] == p.thumbnailUrl
  {
    var s := EditPreviews(p);
    NoBlobs(s);
  }

  /** The split of the submit handler: the thumbnail and the other URLs in
      order, together exactly the full list. */
  function SplitThumbnail(all: seq<string>, t: int): (r: (string, seq<string>))
    requires 0 <= t < |all|
    ensures r.0 == all[t]
    ensures r.1 == all[..t] + all[t + 1..]
    ensures multiset([r.0] + r.1) == multiset(all)
  {
    assert all == all[..t] + [all[t]] + all[t + 1..];
    (all[t], WithoutIndex(all, t))
  }

  /** The image editor with its form fields. */
  class ProductEditor {
    var name: string
    var priceText: string
    var description: string
    var category: string
    var imageFiles: seq<ImageFile>
    var imagePreviews: seq<string>
    var thumbnailIndex: int

    ghost predicate Valid()
      reads this
    {
      Consistent(imagePreviews, imageFiles, thumbnailIndex)
    }

    constructor ()
      ensures name == "" && priceText == "" && description == "" && category == ""
      ensures imageFiles == [] && imagePreviews == [] && thumbnailIndex == 0 && Valid()
    {
      name, priceText, description, category := "", "", "", "";
      imageFiles, imagePreviews, thumbnailIndex := [], [], 0;
    }

    /** resetForm. */
    method ResetForm()
      modifies this
      ensures name == "" && priceText == "" && description == "" && category == ""
      ensures imageFiles == [] && imagePreviews == [] && thumbnailIndex == 0 && Valid()
    {
      name, priceText, description, category := "", "", "", "";
      imageFiles := [];
      imagePreviews := [];
      thumbnailIndex := 0;
    }

    /** The effect run when the dialog opens on a product to edit. */
    method LoadForEdit(p: Row)
      modifies this
      ensures name == p.name && priceText == Text.IntToString(p.price)
      ensures description == p.description && category == p.category
      ensures imagePreviews == EditPreviews(p) && thumbnailIndex == 0 && imageFiles == []
      ensures (forall u :: u in imagePreviews ==> !IsBlob(u)) ==> Valid()
    {
      name := p.name;
      priceText := Text.IntToString(p.price);
      description := p.description;
      category := p.category;
      imagePreviews := EditPreviews(p);
      thumbnailIndex := 0;
      imageFiles := [];
      if forall u :: u in imagePreviews ==> !IsBlob(u) {
        EditInitConsistent(p);
      }
    }

    /** handleFileChange. `newPreviews` are the object URLs made for `files`
        (URL.createObjectURL is not modelled: it is given one blob URL per file). */
    method HandleFileChange(files: seq<ImageFile>, newPreviews: seq<string>) returns (accepted: bool)
      requires |newPreviews| == |files| && forall j :: 0 <= j < |newPreviews| ==> IsBlob(newPreviews[j])
      modifies this
      ensures accepted <==> |old(imagePreviews)| + |files| <= MaxImages
      ensures accepted ==> imageFiles == old(imageFiles) + files && imagePreviews == old(imagePreviews) + newPreviews
      ensures !accepted ==> imageFiles == old(imageFiles) && imagePreviews == old(imagePreviews)
      ensures |old(imagePreviews)| <= MaxImages ==> |imagePreviews| <= MaxImages
      ensures thumbnailIndex == old(thumbnailIndex)
      ensures name == old(name) && priceText == old(priceText)
      ensures description == old(description) && category == old(category)
      ensures old(Valid()) ==> Valid()
    {
      if |imagePreviews| + |files| > MaxImages {
        return false;
      }
      if Valid() {
        AddKeepsConsistent(imagePreviews, imageFiles, thumbnailIndex, files, newPreviews);
      }
      imageFiles := imageFiles + files;
      imagePreviews := imagePreviews + newPreviews;
      accepted := true;
    }

    /** removeImage, called from the remove button of preview `index`. An
        index outside the list removes nothing (`imagePreviews[index]?` is
        undefined and the filters keep every entry). */
    method RemoveImage(index: int)
      modifies this
      ensures imagePreviews == WithoutIndex(old(imagePreviews), index)
      ensures imageFiles == if 0 <= index < |old(imagePreviews)| && IsBlob(old(imagePreviews)[index])
                            then WithoutIndex(old(imageFiles), BlobCount(old(imagePreviews)[..index]))
                            else old(imageFiles)
      ensures thumbnailIndex == ThumbnailAfterRemoval(old(thumbnailIndex), index)
      ensures name == old(name) && priceText == old(priceText)
      ensures description == old(description) && category == old(category)
      ensures old(Valid()) && 0 <= index < |old(imagePreviews)| ==> Valid()
    {
      var isPreviewUrl := 0 <= index < |imagePreviews| && IsBlob(imagePreviews[index]);
      if Valid() && 0 <= index < |imagePreviews| {
        RemoveKeepsConsistent(imagePreviews, imageFiles, thumbnailIndex, index);
      }
      var before := imagePreviews;
      imagePreviews := WithoutIndex(imagePreviews, index);
      if isPreviewUrl {
        var blobIndex := BlobCount(before[..index]);
        imageFiles := WithoutIndex(imageFiles, blobIndex);
      }
      if thumbnailIndex == index {
        thumbnailIndex := 0;
      } else if thumbnailIndex > index {
        thumbnailIndex := thumbnailIndex - 1;
      }
    }

    /** The star button of preview `index`. */
    method SetThumbnail(index: int)
      modifies this
      ensures thumbnailIndex == index
      ensures imagePreviews == old(imagePreviews) && imageFiles == old(imageFiles)
      ensures name == old(name) && priceText == old(priceText)
      ensures description == old(description) && category == old(category)
      ensures old(Valid()) && 0 <= index < |imagePreviews| ==> Valid()
    {
      thumbnailIndex := index;
    }

    /** handleSubmit up to the save call. `uploaded` is the upload's answer:
        `None` when a file failed, otherwise one public URL per pending file,
        in order (no upload is made when there is no pending file). */
    method Submit(uploaded: Option<seq<string>>) returns (outcome: SubmitOutcome)
      requires Valid()
      requires uploaded.Some? ==> |uploaded.value| == |imageFiles|
      ensures imageFiles != [] && uploaded.None? ==> outcome == UploadFailed
      ensures (imageFiles == [] || uploaded.Some?) ==>
        var all := AllImageUrls(imagePreviews, if imageFiles == [] then [] else uploaded.value);
        && (all == [] <==> outcome == NoImages)
        && (all != [] ==>
              && outcome.Save?
              && |all| == |imagePreviews|
              && outcome.data.thumbnailUrl == all[thumbnailIndex]
              && outcome.data.thumbnailUrl == FinalUrl(imagePreviews, if imageFiles == [] then [] else uploaded.value, thumbnailIndex)
              && outcome.data.imageUrls == WithoutIndex(all, thumbnailIndex)
              && outcome.data.name == name && outcome.data.priceText == priceText
              && outcome.data.description == description && outcome.data.category == category)
    {
      var existingImageUrls := StoredUrls(imagePreviews);
      var uploadedUrls: seq<string> := [];
      if |imageFiles| > 0 {
        if uploaded.None? {
          return UploadFailed;
        }
        uploadedUrls := uploaded.value;
      }
      var allImageUrls := existingImageUrls + uploadedUrls;
      SubmitUrlsMatchPreviews(imagePreviews, imageFiles, uploadedUrls);
      if |allImageUrls| == 0 {
        return NoImages;
      }
      var split := SplitThumbnail(allImageUrls, thumbnailIndex);
      outcome := Save(ProductData(name, priceText, description, category, split.0, split.1));
    }
  }
}
