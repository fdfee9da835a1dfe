/** The freelancer's profile form (FreelancerProfile.tsx). The two number
    inputs are held as already-parsed values, `None` standing for an empty
    input. The form starts from the saved profile when there is one, the
    avatar is set from the upload endpoint's answer, and submit either
    rejects the input or produces the profile to save. */
module ProfileFormModel {
  import opened Wrappers
  import opened Entities
  import opened TechSelection
  import FileUpload

  const MissingFieldsMessage := "Please fill in all required fields and select at least one technology"
  const NegativeNumberMessage := "Experience and hourly rate must be positive numbers"
  const BackendOrigin := "http://localhost:8080"

  /** The avatar URL displayed for an upload answer `url`. */
  function AvatarUrlFor(url: string): (a: string)
    ensures FileUpload.StartsWith(a, BackendOrigin) && a[|BackendOrigin|..] == url
  {
    BackendOrigin + url
  }

  /** A successful upload to the backend shows the stored file under the
      backend's origin, keeping the original extension. */
  lemma UploadedAvatarUrl(file: FileUpload.UploadedFile, uuid: string)
    requires FileUpload.UploadAvatar(file, uuid).Ok?
    ensures var a := AvatarUrlFor(FileUpload.UploadAvatar(file, uuid).value);
      FileUpload.StartsWith(a, BackendOrigin + FileUpload.UploadsPrefix) &&
      FileUpload.EndsWith(a, FileUpload.Extension(file.originalFilename))
  {
    var url := FileUpload.UploadAvatar(file, uuid).value;
    var a := AvatarUrlFor(url);
    assert a[..|BackendOrigin + FileUpload.UploadsPrefix|] == BackendOrigin + url[..|FileUpload.UploadsPrefix|];
    var ext := FileUpload.Extension(file.originalFilename);
    assert a[|a| - |ext|..] == url[|url| - |ext|..];
  }

  /** The submit checks, in order, over the form's values. */
  function ValidateProfile(title: string, bio: string, experience: Option<int>, hourlyRate: Option<int>,
                           selected: seq<string>, availability: Availability, avatarUrl: string)
    : (r: Result<ProfileData, string>)
    ensures (title == "" || bio == "" || experience.None? || hourlyRate.None? || |selected| == 0) ==>
      r == Err(MissingFieldsMessage)
    ensures (title != "" && bio != "" && experience.Some? && hourlyRate.Some? && |selected| > 0 &&
             (experience.value < 0 || hourlyRate.value < 0)) ==> r == Err(NegativeNumberMessage)
    ensures r.Ok? <==> title != "" && bio != "" && |selected| > 0 &&
                       experience.Some? && experience.value >= 0 && hourlyRate.Some? && hourlyRate.value >= 0
    ensures r.Ok? ==> r.value.technologies == selected && r.value.availability == availability &&
                      r.value.avatar == Some(avatarUrl) && r.value.title == title && r.value.bio == bio &&
                      r.value.experience == experience.value && r.value.hourlyRate == hourlyRate.value
  {
    if title == "" || bio == "" || experience.None? || hourlyRate.None? || |selected| == 0 then
      Err(MissingFieldsMessage)
    else if experience.value < 0 || hourlyRate.value < 0 then
      Err(NegativeNumberMessage)
    else
      Ok(ProfileData(title, bio, experience.value, hourlyRate.value, selected, availability, Some(avatarUrl)))
  }

  class ProfileForm {
    var title: string
    var bio: string
    var experience: Option<int>
    var hourlyRate: Option<int>
    var selectedTech: seq<string>
    var availability: Availability
    var avatarUrl: string
    var uploading: bool

    /** Fields start from `initialData` when given, else empty, with
        'full-time' availability. */
    constructor (initialData: Option<ProfileData>)
      ensures initialData.Some? ==>
        var d := initialData.value;
        title == d.title && bio == d.bio && experience == Some(d.experience) &&
        hourlyRate == Some(d.hourlyRate) && selectedTech == d.technologies &&
        availability == d.availability && avatarUrl == (if d.avatar.Some? then d.avatar.value else "")
      ensures initialData.None? ==>
        title == "" && bio == "" && experience == None && hourlyRate == None && selectedTech == [] &&
        availability == FullTime && avatarUrl == ""
      ensures !uploading
    {
      if initialData.Some? {
        var d := initialData.value;
        title, bio := d.title, d.bio;
        experience, hourlyRate := Some(d.experience), Some(d.hourlyRate);
        selectedTech, availability := d.technologies, d.availability;
        avatarUrl := if d.avatar.Some? then d.avatar.value else "";
      } else {
        title, bio, experience, hourlyRate := "", "", None, None;
        selectedTech, availability, avatarUrl := [], FullTime, "";
      }
      uploading := false;
    }

    /** `handleTechToggle`. */
    method HandleTechToggle(name: string)
      modifies this`selectedTech
      ensures selectedTech == Toggle(old(selectedTech), name)
    {
      selectedTech := Toggle(selectedTech, name);
    }

    /** The start of `uploadAvatar`. */
    method BeginUpload()
      modifies this`uploading
      ensures uploading
    {
      uploading := true;
    }

    /** The end of `uploadAvatar`: an answer `{ url }` sets the avatar under
        the backend's origin; an error answer or a failed request leaves it. */
    method FinishUpload(response: Result<string, string>)
      modifies this`uploading, this`avatarUrl
      ensures !uploading
      ensures response.Ok? ==> avatarUrl == AvatarUrlFor(response.value)
      ensures response.Err? ==> avatarUrl == old(avatarUrl)
    {
      if response.Ok? {
        avatarUrl := AvatarUrlFor(response.value);
      }
      uploading := false;
    }

    /** `handleSubmit`: the profile handed to `onSave`, or the alert. */
    function Submit(): (r: Result<ProfileData, string>)
      reads this
      ensures r.Ok? ==> r.value.technologies == selectedTech && r.value.availability == availability &&
                        r.value.avatar == Some(avatarUrl)
    {
      ValidateProfile(title, bio, experience, hourlyRate, selectedTech, availability, avatarUrl)
    }
  }
}
