/**
 * What `app/onboarding/business-profile.tsx` and `app/onboarding/business.tsx`
 * share about the National Identity Card (NIC): the number field, which is
 * capped at 13 characters and keeps only digits, and the native upload of the
 * card's image, whose MIME type follows the file extension.
 */
module Nic {
  import opened Wrappers
  import Strings
  import ListOps

  /** The digits of a NIC number. */
  const NicLength := 13

  function Min(a: nat, b: nat): nat {
    if a <= b then a else b
  }

  /** The field's value after typing `text`: the input's `maxLength` cuts it
      to 13 characters, then `replace(/[^0-9]/g, '')` drops the non-digits. */
  function NicInput(text: string): (r: string)
    ensures Strings.AllDigits(r) && |r| <= NicLength
    ensures Strings.AllDigits(text) && |text| <= NicLength ==> r == text
    ensures forall c :: c in r ==> c in text
    ensures r == ListOps.Filter(text[..Min(|text|, NicLength)], Strings.IsDigit)
    ensures ListOps.IsSubsequence(r, text[..Min(|text|, NicLength)])
  {
    var kept := text[..Min(|text|, NicLength)];
    DigitsOfIsFilter(kept);
    ListOps.FilterSubsequence(kept, Strings.IsDigit);
    Strings.DigitsOf(kept)
  }

  /** Dropping the non-digits is filtering on `IsDigit`: the digits stay in
      the order they were typed. */
  lemma {:induction false} DigitsOfIsFilter(s: string)
    ensures Strings.DigitsOf(s) == ListOps.Filter(s, Strings.IsDigit)
  {
    if s != [] {
      DigitsOfIsFilter(s[1..]);
    }
  }

  /** Once filtered, the value passes through the filter unchanged. */
  lemma NicInputStable(text: string)
    ensures NicInput(NicInput(text)) == NicInput(text)
  {
  }

  /** A value the field holds is never blank unless it is empty, and it is
      its own trim. */
  lemma TypedNicTrimmed(text: string)
    ensures Strings.Trim(NicInput(text)) == NicInput(text)
    ensures NicInput(text) != "" ==> !Strings.IsBlank(NicInput(text))
  {
    var r := NicInput(text);
    if r != "" {
      assert Strings.IsDigit(r[0]) && Strings.IsDigit(r[|r| - 1]);
      assert !Strings.IsSpace(r[0]);
    }
    Strings.TrimUnchanged(r);
  }

  /** `uri.split('.')`'s last part, lowercased. */
  function Extension(uri: string): (r: string)
    ensures '.' !in r
    ensures '.' !in uri ==> r == Strings.ToLower(uri)
  {
    var parts := Strings.Split(uri, ".");
    var last := parts[|parts| - 1];
    Strings.SplitPiecesFree(uri, ".");
    Strings.NotContainsChar(last, '.');
    Strings.SplitWithoutSeparator(uri, '.');
    Strings.ToLower(last)
  }

  /** The extension of a name is what follows its last dot, lowercased,
      however many dots come before. */
  lemma ExtensionAfterDot(name: string, ext: string)
    requires '.' !in ext
    ensures Extension(name + "." + ext) == Strings.ToLower(ext)
  {
    Strings.SplitLastPiece(name, '.', ext);
    assert name + "." + ext == name + ['.'] + ext;
  }

  /** The MIME type sent for an extension. */
  function MimeType(ext: string): (r: string)
    ensures r in {"application/pdf", "image/png", "image/gif", "image/jpeg"}
    ensures r == "image/jpeg" <==> ext != "pdf" && ext != "png" && ext != "gif"
  {
    if ext == "pdf" then "application/pdf"
    else if ext == "png" then "image/png"
    else if ext == "gif" then "image/gif"
    else "image/jpeg"
  }

  /** The file part of the native form data. */
  datatype Upload = Upload(uri: string, name: string, mimeType: string)

  /** `{uri, name: nicImageName || \`nic.${fileExt}\`, type: mimeType}`. */
  function NativeUpload(nicImage: string, nicImageName: Option<string>): (r: Upload)
    ensures r.uri == nicImage
    ensures nicImageName.Some? && nicImageName.value != "" ==> r.name == nicImageName.value
    ensures nicImageName.None? || nicImageName.value == "" ==> r.name == "nic." + Extension(nicImage)
    ensures r.mimeType == MimeType(Extension(nicImage))
  {
    var ext := Extension(nicImage);
    Upload(nicImage, if nicImageName.Some? && nicImageName.value != "" then nicImageName.value else "nic." + ext,
           MimeType(ext))
  }

  /** A file named `<name>.<ext>` with no stored name goes up as
      `nic.<ext>`, lowercased, with the type of the lowercased extension. */
  lemma UploadOfDottedName(name: string, ext: string)
    requires '.' !in ext
    ensures NativeUpload(name + "." + ext, None)
      == Upload(name + "." + ext, "nic." + Strings.ToLower(ext), MimeType(Strings.ToLower(ext)))
  {
    ExtensionAfterDot(name, ext);
  }
}
