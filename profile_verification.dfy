/**
 * `app/onboarding/helper-steps/step2-profile-verification.tsx`: the NIC
 * step. Uploads are simulated with fixed mock files; only the NIC number is
 * required to go on.
 */
module ProfileVerification {
  import opened Wrappers
  import Strings

  datatype MockFile = MockFile(uri: string, name: string, mimeType: string)

  const MockNic := MockFile("file://mock-nic.jpg", "NIC.jpg", "image/jpeg")
  const MockPhoto := MockFile("file://mock-photo.jpg", "Photo.jpg", "image/jpeg")

  datatype VerificationData = VerificationData(nicFile: Option<MockFile>, nicNumber: string, photoFile: Option<MockFile>)

  /** The simulated NIC upload: only `nicFile` changes. */
  function UploadNic(data: VerificationData): (r: VerificationData)
    ensures r.nicFile == Some(MockNic) && r.nicNumber == data.nicNumber && r.photoFile == data.photoFile
  {
    data.(nicFile := Some(MockNic))
  }

  /** The simulated photo upload: only `photoFile` changes. */
  function UploadPhoto(data: VerificationData): (r: VerificationData)
    ensures r.photoFile == Some(MockPhoto) && r.nicNumber == data.nicNumber && r.nicFile == data.nicFile
  {
    data.(photoFile := Some(MockPhoto))
  }

  /** `handleNext`: the alert it shows, or `None` when it calls `onNext`.
      It asks only for a NIC number that is not blank; the files are
      optional. The Next button is disabled on the same condition. */
  function HandleNext(data: VerificationData): (r: Option<string>)
    ensures r.None? <==> !Strings.IsBlank(data.nicNumber)
    ensures r.Some? ==> r.value == "Please enter your NIC number"
  {
    if Strings.Trim(data.nicNumber) == "" then Some("Please enter your NIC number") else None
  }

  /** Uploading files never changes whether the step can be left. */
  lemma UploadsDoNotUnlock(data: VerificationData)
    ensures HandleNext(UploadPhoto(UploadNic(data))) == HandleNext(data)
  {
  }
}
