/**
 * What the upload component does once the browser has read a picked file as a data URL
 * (`data:[<mediatype>][;base64],<data>`, section 3 of RFC 2397): it fills in a missing
 * MIME type from the file extension and repairs a data URL whose media type is empty or
 * generic, then hands the resulting `ImageFile` on.
 */
module ImageUpload {
  import opened Text
  import opened Types

  /** The prefix a reader produces for a file with no type. */
  const EmptyTypePrefix: string := "data:;base64,"
  /** The prefix a reader produces for a file of generic binary type. */
  const OctetStreamPrefix: string := "data:application/octet-stream;base64,"

  /** `name.split('.').pop().toLowerCase()`: the lower-cased text after the last '.'. */
  function Extension(name: string): (ext: string)
    ensures '.' !in ext && |ext| <= |name|
    ensures forall i :: 0 <= i < |ext| ==> !('A' <= ext[i] <= 'Z')
  {
    LastFieldIsAfterLastSeparator(name, '.');
    ToLower(LastField(name, '.'))
  }

  /** The extension is the lower-cased text after the last '.', the whole name when it has none. */
  lemma ExtensionIsTextAfterLastDot(name: string)
    ensures var ext := Extension(name);
      && '.' !in ext
      && |ext| <= |name|
      && ext == ToLower(name[|name| - |ext|..])
      && (|ext| < |name| ==> name[|name| - |ext| - 1] == '.')
    ensures '.' !in name ==> Extension(name) == ToLower(name)
    ensures |name| > 0 && name[|name| - 1] == '.' ==> Extension(name) == ""
  {
    LastFieldIsAfterLastSeparator(name, '.');
    if '.' !in name {
      LastFieldWithoutSeparator(name, '.');
    }
  }

  /** The MIME type inferred from an extension; anything unrecognised counts as JPEG. */
  function InferMimeType(ext: string): (mime: string)
    ensures mime in {"image/png", "image/webp", "image/heic", "image/jpeg"}
    ensures mime == "image/png" <==> ext == "png"
    ensures mime == "image/webp" <==> ext == "webp"
    ensures mime == "image/heic" <==> ext == "heic"
    ensures mime == "image/jpeg" <==> ext !in {"png", "webp", "heic"}
  {
    if ext == "png" then "image/png"
    else if ext == "webp" then "image/webp"
    else if ext == "heic" then "image/heic"
    else "image/jpeg"
  }

  /** Rewrites an empty or generic media type in the data URL's prefix to `mime`. */
  function RepairDataUrl(dataUrl: string, mime: string): (r: string)
    ensures r != dataUrl ==> StartsWith(dataUrl, EmptyTypePrefix) || StartsWith(dataUrl, OctetStreamPrefix)
    ensures r != dataUrl ==> StartsWith(r, DataUrlPrefix(mime))
  {
    if StartsWith(dataUrl, EmptyTypePrefix) then
      var r := ReplaceFirst(dataUrl, EmptyTypePrefix, DataUrlPrefix(mime));
      assert r[..|DataUrlPrefix(mime)|] == DataUrlPrefix(mime);
      r
    else if StartsWith(dataUrl, OctetStreamPrefix) then
      var r := ReplaceFirst(dataUrl, OctetStreamPrefix, DataUrlPrefix(mime));
      assert r[..|DataUrlPrefix(mime)|] == DataUrlPrefix(mime);
      r
    else dataUrl
  }

  /** A data URL with an empty media type gets `mime`, and its payload is kept. */
  lemma RepairEmptyType(dataUrl: string, mime: string)
    requires StartsWith(dataUrl, EmptyTypePrefix)
    ensures RepairDataUrl(dataUrl, mime) == DataUrlPrefix(mime) + dataUrl[|EmptyTypePrefix|..]
  {
  }

  /** A data URL of type application/octet-stream gets `mime`, and its payload is kept. */
  lemma RepairOctetStream(dataUrl: string, mime: string)
    requires StartsWith(dataUrl, OctetStreamPrefix)
    ensures RepairDataUrl(dataUrl, mime) == DataUrlPrefix(mime) + dataUrl[|OctetStreamPrefix|..]
  {
    assert !StartsWith(dataUrl, EmptyTypePrefix) by {
      assert dataUrl[5] == OctetStreamPrefix[5] == 'a';
    }
  }

  /** Any other data URL is left as it is. */
  lemma RepairOtherUnchanged(dataUrl: string, mime: string)
    requires !StartsWith(dataUrl, EmptyTypePrefix) && !StartsWith(dataUrl, OctetStreamPrefix)
    ensures RepairDataUrl(dataUrl, mime) == dataUrl
  {
  }

  /** The `ImageFile` the upload component hands on for `file`, read as `dataUrl`. */
  function Normalize(file: RawFile, dataUrl: string): (img: ImageFile)
    ensures img.file == file
    ensures img.preview == img.base64
    ensures img.mimeType != ""
    ensures file.mimeType != "" ==> img.mimeType == file.mimeType && img.base64 == dataUrl
    ensures file.mimeType == "" ==> img.mimeType == InferMimeType(Extension(file.name))
    ensures file.mimeType == "" ==> img.base64 == RepairDataUrl(dataUrl, img.mimeType)
  {
    var mimeType := if file.mimeType == "" then InferMimeType(Extension(file.name)) else file.mimeType;
    var base64String := if file.mimeType == "" then RepairDataUrl(dataUrl, mimeType) else dataUrl;
    ImageFile(file, base64String, base64String, mimeType)
  }

  /** With no declared type, a repaired prefix names exactly the inferred type. */
  lemma NormalizedPrefixMatchesType(file: RawFile, dataUrl: string)
    requires file.mimeType == ""
    requires StartsWith(dataUrl, EmptyTypePrefix) || StartsWith(dataUrl, OctetStreamPrefix)
    ensures var img := Normalize(file, dataUrl);
      StartsWith(img.base64, DataUrlPrefix(img.mimeType))
  {
    var img := Normalize(file, dataUrl);
    if StartsWith(dataUrl, EmptyTypePrefix) {
      RepairEmptyType(dataUrl, img.mimeType);
    } else {
      RepairOctetStream(dataUrl, img.mimeType);
    }
  }

  /** Uploading again, now with the type the first upload settled on, changes nothing. */
  lemma NormalizeIdempotent(file: RawFile, dataUrl: string)
    ensures var img := Normalize(file, dataUrl);
      var again := RawFile(file.name, img.mimeType);
      Normalize(again, img.base64) == img.(file := again)
  {
  }

  /** The extension of `stem.ext` is `ext` in lower case, whatever dots `stem` holds. */
  lemma ExtensionOfDottedName(stem: string, ext: string)
    requires '.' !in ext
    ensures Extension(stem + "." + ext) == ToLower(ext)
  {
    assert stem + "." + ext == stem + ['.'] + ext;
    LastFieldAfterSeparator(stem, ext, '.');
  }

  /** Extensions are compared in lower case: the extension of `<stem>.PNG` is "png". */
  lemma UpperCaseExtension(stem: string)
    ensures Extension(stem + ".PNG") == "png"
  {
    assert stem + ".PNG" == stem + "." + "PNG";
    ExtensionOfDottedName(stem, "PNG");
    var lower := ToLower("PNG");
    assert lower[0] == 'p' && lower[1] == 'n' && lower[2] == 'g';
  }

  /** A typeless `<stem>.PNG` read with an empty media type becomes a PNG data URL with the same payload. */
  lemma UpperCaseExtensionUpload(stem: string, payload: string)
    ensures var img := Normalize(RawFile(stem + ".PNG", ""), EmptyTypePrefix + payload);
      && img.mimeType == "image/png"
      && img.base64 == DataUrlPrefix("image/png") + payload
  {
    UpperCaseExtension(stem);
    var url := EmptyTypePrefix + payload;
    assert url[..|EmptyTypePrefix|] == EmptyTypePrefix;
    RepairEmptyType(url, "image/png");
    assert url[|EmptyTypePrefix|..] == payload;
  }

  /**
   * A typeless name without a dot is its own extension, so it falls back to JPEG unless the
   * whole name is png, webp or heic; a data URL with a specific media type stays as it is.
   */
  lemma NoExtensionFallback(name: string, dataUrl: string)
    requires '.' !in name && ToLower(name) !in {"png", "webp", "heic"}
    requires !StartsWith(dataUrl, EmptyTypePrefix) && !StartsWith(dataUrl, OctetStreamPrefix)
    ensures Normalize(RawFile(name, ""), dataUrl) == ImageFile(RawFile(name, ""), dataUrl, dataUrl, "image/jpeg")
  {
    LastFieldWithoutSeparator(name, '.');
  }
}
