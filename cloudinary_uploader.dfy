/** The recipe image uploader (client/src/components/CloudinaryUploader.jsx): the
    checks a picked file must pass, the uploading flag around the upload request,
    and what the parent's completion callback receives. */
module CloudinaryUploader {
  import opened Common
  import opened FormData

  /** 10 MiB, the largest accepted file. */
  const MaxBytes: nat := 10 * 1024 * 1024
  const ImagePrefix := "image/"

  /** `s.startsWith(p)`. */
  predicate StartsWith(s: string, p: string) {
    |p| <= |s| && s[..|p|] == p
  }

  /** What handleFileSelect does with the first picked file (None: none picked). */
  datatype Selection = NoFile | NotAnImage | TooLarge | Accepted(file: File)

  /** A file is uploaded exactly when one was picked, its type starts with
      "image/" and it is at most 10 MiB; the type check comes before the size
      check; nothing picked does nothing. */
  function Check(picked: Option<File>): (r: Selection)
    ensures r.Accepted? <==>
      picked.Some? && StartsWith(picked.value.mimeType, ImagePrefix) && picked.value.size <= MaxBytes
    ensures r.Accepted? ==> r.file == picked.value
    ensures r == NoFile <==> picked.None?
    ensures r == NotAnImage <==> picked.Some? && !StartsWith(picked.value.mimeType, ImagePrefix)
    ensures r == TooLarge <==>
      picked.Some? && StartsWith(picked.value.mimeType, ImagePrefix) && picked.value.size > MaxBytes
  {
    if picked.None? then NoFile
    else if !StartsWith(picked.value.mimeType, ImagePrefix) then NotAnImage
    else if picked.value.size > MaxBytes then TooLarge
    else Accepted(picked.value)
  }

  /** The size bound is inclusive: an image of exactly 10 MiB is uploaded, one
      byte more is refused. */
  lemma SizeBoundary(name: string)
    ensures Check(Some(File(name, "image/png", 10485760))) == Accepted(File(name, "image/png", 10485760))
    ensures Check(Some(File(name, "image/png", 10485761))) == TooLarge
  {
    assert "image/png"[..|ImagePrefix|] == ImagePrefix;
  }

  class Uploader {
    var isUploading: bool
    /** The file of the upload in flight. */
    var inFlight: Option<File>
    /** Every file sent to the upload service, in order. */
    var uploads: seq<File>
    /** Every argument `onUploadComplete` received, in order (None for null). */
    var completed: seq<Option<string>>

    predicate Valid()
      reads this
    {
      isUploading <==> inFlight.Some?
    }

    constructor()
      ensures Valid() && !isUploading && uploads == [] && completed == []
    {
      isUploading, inFlight, uploads, completed := false, None, [], [];
    }

    /** handleFileSelect; the input is disabled while an upload is in flight. A
        file that passes Check starts exactly one upload; anything else changes
        nothing. */
    method Select(picked: Option<File>) returns (outcome: Selection)
      requires Valid() && !isUploading
      modifies this
      ensures Valid() && outcome == Check(picked)
      ensures outcome.Accepted? ==>
        isUploading && inFlight == Some(outcome.file) && uploads == old(uploads) + [outcome.file]
      ensures !outcome.Accepted? ==> !isUploading && uploads == old(uploads)
      ensures completed == old(completed)
    {
      outcome := Check(picked);
      if outcome.Accepted? {
        isUploading := true;
        inFlight := Some(outcome.file);
        uploads := uploads + [outcome.file];
      }
    }

    /** The end of uploadToCloudinary: the callback gets `data.secure_url` only
        when the response is ok; the flag drops either way. */
    method Finish(ok: bool, secureUrl: Option<string>)
      requires Valid() && isUploading
      modifies this
      ensures Valid() && !isUploading
      ensures ok ==> completed == old(completed) + [secureUrl]
      ensures !ok ==> completed == old(completed)
      ensures uploads == old(uploads)
    {
      if ok {
        completed := completed + [secureUrl];
      }
      isUploading := false;
      inFlight := None;
    }

    /** handleRemoveImage: the callback receives null. */
    method Remove()
      modifies this
      ensures completed == old(completed) + [None]
      ensures isUploading == old(isUploading) && inFlight == old(inFlight) && uploads == old(uploads)
    {
      completed := completed + [None];
    }
  }
}
