/** The image picker's validation and batch acceptance
    (src/components/atoms/ImageUpload.jsx). The component's `images` prop
    and its `error` state become fields; `onChange(list)` writes the new
    list back into `images`. */
module ImageUpload {
  import opened Common
  import opened Lists
  import opened Text

  /** A dropped or selected file: its MIME type and its size in bytes. */
  datatype File = File(mimeType: string, size: nat)

  /** Why a batch is refused. */
  datatype ImageError =
    | NotAnImage            // "Only image files are allowed"
    | TooLarge(maxSizeMB: nat)
    | TooMany(maxImages: nat)
    | EncodeFailed          // a file could not be read as a data URL

  /** The decimal spelling of n, as a template literal prints it. */
  function Decimal(n: nat): string
  {
    if n < 10 then [('0' as int + n) as char] else Decimal(n / 10) + Decimal(n % 10)
  }

  /** The text the component shows for an error. */
  function Message(e: ImageError): string
  {
    match e
    case NotAnImage => "Only image files are allowed"
    case TooLarge(m) => "Image size must be less than " + Decimal(m) + "MB"
    case TooMany(m) => "Maximum " + Decimal(m) + " images allowed"
    case EncodeFailed => "Failed to process images. Please try again."
  }

  /** `maxSizeMB * 1024 * 1024`. */
  function MaxBytes(maxSizeMB: nat): nat
  {
    maxSizeMB * 1024 * 1024
  }

  /** `validateFile(file)`: None when the file is accepted. */
  function ValidateFile(file: File, maxSizeMB: nat): Option<ImageError>
  {
    if !StartsWith(file.mimeType, "image/") then Some(NotAnImage)
    else if file.size > MaxBytes(maxSizeMB) then Some(TooLarge(maxSizeMB))
    else None
  }

  /** A file is accepted exactly when it is an image no larger than the
      limit (a file of exactly the limit passes); the type check comes
      first, so a non-image is refused as such whatever its size. */
  lemma ValidateFileSpec(file: File, maxSizeMB: nat)
    ensures ValidateFile(file, maxSizeMB).None?
        <==> StartsWith(file.mimeType, "image/") && file.size <= maxSizeMB * 1048576
    ensures !StartsWith(file.mimeType, "image/") ==> ValidateFile(file, maxSizeMB) == Some(NotAnImage)
    ensures StartsWith(file.mimeType, "image/") && file.size > maxSizeMB * 1048576
            ==> ValidateFile(file, maxSizeMB) == Some(TooLarge(maxSizeMB))
  {
  }

  /** The `errors` array of `handleFiles`: one error per refused file, in
      file order. */
  function Errors(files: seq<File>, maxSizeMB: nat): (r: seq<ImageError>)
    ensures |r| <= |files|
  {
    if files == [] then []
    else
      var last := files[|files| - 1];
      Errors(files[..|files| - 1], maxSizeMB)
        + (if ValidateFile(last, maxSizeMB).Some? then [ValidateFile(last, maxSizeMB).value] else [])
  }

  /** The `validFiles` array of `handleFiles`. */
  function ValidFiles(files: seq<File>, maxSizeMB: nat): seq<File>
  {
    Filter(files, (f: File) => ValidateFile(f, maxSizeMB).None?)
  }

  /** `Promise.all(files.map(convertToBase64))`: the encoded files in order,
      or None when any of them fails. */
  function EncodeAll(files: seq<File>, encode: File -> Option<string>): (r: Option<seq<string>>)
    ensures r.Some? ==> |r.value| == |files| && forall i :: 0 <= i < |files| ==> encode(files[i]) == Some(r.value[i])
    ensures r.None? <==> exists i :: 0 <= i < |files| && encode(files[i]).None?
  {
    if files == [] then Some([])
    else
      match (encode(files[0]), EncodeAll(files[1..], encode))
      case (Some(x), Some(rest)) => Some([x] + rest)
      case (None, _) => None
      case (_, None) =>
        var i :| 0 <= i < |files[1..]| && encode(files[1..][i]).None?;
        assert encode(files[i + 1]).None?;
        None
  }

  /** What a batch does. */
  datatype UploadOutcome = Rejected(error: ImageError) | Accepted(images: seq<string>)

  /** The outcome of `handleFiles(files)` with the current images. */
  function BatchOutcome(images: seq<string>, files: seq<File>, maxImages: nat, maxSizeMB: nat,
                        encode: File -> Option<string>): UploadOutcome
  {
    if |images| + |files| > maxImages then Rejected(TooMany(maxImages))
    else if Errors(files, maxSizeMB) != [] then Rejected(Errors(files, maxSizeMB)[0])
    else match EncodeAll(ValidFiles(files, maxSizeMB), encode)
      case None => Rejected(EncodeFailed)
      case Some(encoded) => Accepted(images + encoded)
  }

  /** There are no errors exactly when every file is valid, and then the
      valid files are all the files. */
  lemma {:induction false} NoErrorsAllValid(files: seq<File>, maxSizeMB: nat)
    ensures Errors(files, maxSizeMB) == [] <==> forall f :: f in files ==> ValidateFile(f, maxSizeMB).None?
  {
    if files != [] {
      var init := files[..|files| - 1];
      NoErrorsAllValid(init, maxSizeMB);
      assert files == init + [files[|files| - 1]];
    }
  }

  /** The first error is the error of the first refused file. */
  lemma {:induction false} FirstErrorIsFirstFiles(files: seq<File>, maxSizeMB: nat, k: int)
    requires 0 <= k < |files| && ValidateFile(files[k], maxSizeMB).Some?
    requires forall i :: 0 <= i < k ==> ValidateFile(files[i], maxSizeMB).None?
    ensures Errors(files, maxSizeMB) != [] && Errors(files, maxSizeMB)[0] == ValidateFile(files[k], maxSizeMB).value
  {
    var init := files[..|files| - 1];
    if k == |files| - 1 {
      NoErrorsAllValid(init, maxSizeMB);
      assert Errors(init, maxSizeMB) == [];
    } else {
      FirstErrorIsFirstFiles(init, maxSizeMB, k);
    }
  }

  /** A batch that would exceed the count cap is refused whatever the
      files; otherwise the first refused file's error is shown. */
  lemma RejectionReason(images: seq<string>, files: seq<File>, maxImages: nat, maxSizeMB: nat,
                        encode: File -> Option<string>, k: int)
    requires 0 <= k < |files| && ValidateFile(files[k], maxSizeMB).Some?
    requires forall i :: 0 <= i < k ==> ValidateFile(files[i], maxSizeMB).None?
    ensures BatchOutcome(images, files, maxImages, maxSizeMB, encode)
         == if |images| + |files| > maxImages then Rejected(TooMany(maxImages))
            else Rejected(ValidateFile(files[k], maxSizeMB).value)
  {
    FirstErrorIsFirstFiles(files, maxSizeMB, k);
  }

  /** An accepted batch is all-or-nothing: every file was valid, the new
      list is the old images followed by every file's encoding in input
      order, and it respects the count cap. */
  lemma AcceptedBatch(images: seq<string>, files: seq<File>, maxImages: nat, maxSizeMB: nat,
                      encode: File -> Option<string>)
    requires BatchOutcome(images, files, maxImages, maxSizeMB, encode).Accepted?
    ensures var n := BatchOutcome(images, files, maxImages, maxSizeMB, encode).images;
      && |n| == |images| + |files| <= maxImages
      && n[..|images|] == images
      && (forall f :: f in files ==> ValidateFile(f, maxSizeMB).None?)
      && (forall i :: 0 <= i < |files| ==> encode(files[i]) == Some(n[|images| + i]))
  {
    NoErrorsAllValid(files, maxSizeMB);
    FilterAll(files, (f: File) => ValidateFile(f, maxSizeMB).None?);
  }

  /** `images.filter((_, i) => i !== index)`. */
  function RemoveIndex(images: seq<string>, index: int): (r: seq<string>)
    ensures !(0 <= index < |images|) ==> r == images
    ensures 0 <= index < |images| ==> |r| == |images| - 1
    ensures 0 <= index < |images| ==> forall j :: 0 <= j < index ==> r[j] == images[j]
    ensures 0 <= index < |images| ==> forall j :: index <= j < |r| ==> r[j] == images[j + 1]
  {
    if 0 <= index < |images| then RemoveAt(images, index) else images
  }

  /** One more file extends the two arrays `handleFiles` fills. */
  lemma ClassifyStep(files: seq<File>, i: int, maxSizeMB: nat)
    requires 0 <= i < |files|
    ensures ValidateFile(files[i], maxSizeMB).Some? ==>
      && Errors(files[..i + 1], maxSizeMB) == Errors(files[..i], maxSizeMB) + [ValidateFile(files[i], maxSizeMB).value]
      && ValidFiles(files[..i + 1], maxSizeMB) == ValidFiles(files[..i], maxSizeMB)
    ensures ValidateFile(files[i], maxSizeMB).None? ==>
      && Errors(files[..i + 1], maxSizeMB) == Errors(files[..i], maxSizeMB)
      && ValidFiles(files[..i + 1], maxSizeMB) == ValidFiles(files[..i], maxSizeMB) + [files[i]]
  {
    assert files[..i + 1] == files[..i] + [files[i]];
    assert files[..i + 1][..i] == files[..i];
    FilterAppend(files[..i], files[i], (f: File) => ValidateFile(f, maxSizeMB).None?);
  }

  /** The loop of `handleFiles`: sorts the files into the valid ones and
      the errors of the others, in file order. */
  method Classify(files: seq<File>, maxSizeMB: nat) returns (validFiles: seq<File>, errors: seq<ImageError>)
    ensures errors == Errors(files, maxSizeMB)
    ensures validFiles == ValidFiles(files, maxSizeMB)
  {
    validFiles := [];
    errors := [];
    var i := 0;
    while i < |files|
      invariant 0 <= i <= |files|
      invariant errors == Errors(files[..i], maxSizeMB)
      invariant validFiles == ValidFiles(files[..i], maxSizeMB)
    {
      var file := files[i];
      ClassifyStep(files, i, maxSizeMB);
      var validationError := ValidateFile(file, maxSizeMB);
      if validationError.Some? {
        errors := errors + [validationError.value];
      } else {
        validFiles := validFiles + [file];
      }
      i := i + 1;
    }
    assert files[..i] == files;
  }

  /** The component's state. */
  class Uploader {
    var images: seq<string>
    var error: string
    const maxImages: nat
    const maxSizeMB: nat

    /** The props `images = []`, `maxImages = 5`, `maxSizeMB = 5`. */
    constructor (initial: seq<string>, maxImages: nat := 5, maxSizeMB: nat := 5)
      ensures images == initial && error == ""
      ensures this.maxImages == maxImages && this.maxSizeMB == maxSizeMB
    {
      images := initial;
      error := "";
      this.maxImages := maxImages;
      this.maxSizeMB := maxSizeMB;
    }

    /** `handleFiles(files)`: either the whole batch is added, or nothing is
        added and the reason is shown. */
    method HandleFiles(files: seq<File>, encode: File -> Option<string>)
      modifies this
      ensures match BatchOutcome(old(images), files, maxImages, maxSizeMB, encode)
        case Rejected(e) => images == old(images) && error == Message(e)
        case Accepted(n) => images == n && error == ""
    {
      ghost var outcome := BatchOutcome(images, files, maxImages, maxSizeMB, encode);
      error := "";
      if |images| + |files| > maxImages {
        assert outcome == Rejected(TooMany(maxImages));
        error := Message(TooMany(maxImages));
        return;
      }
      var validFiles, errors := Classify(files, maxSizeMB);
      if |errors| > 0 {
        assert outcome == Rejected(errors[0]);
        error := Message(errors[0]);
        return;
      }
      var encoded := EncodeAll(validFiles, encode);
      if encoded.None? {
        assert outcome == Rejected(EncodeFailed);
        error := Message(EncodeFailed);
        return;
      }
      assert outcome == Accepted(images + encoded.value);
      images := images + encoded.value;
    }

    /** `handleRemoveImage(index)`. */
    method RemoveImage(index: int)
      modifies this
      ensures images == RemoveIndex(old(images), index) && error == old(error)
    {
      images := RemoveIndex(images, index);
    }
  }
}
