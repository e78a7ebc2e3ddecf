/** The profile set-up page (`SetupProfileComponent`): a user name and an optional picture,
    read as a data URL, create the viewer's profile. */
module SetupProfileView {
  import opened Wrappers
  import opened Models
  import opened Http
  import opened Js
  import opened Auth
  import opened Profiles

  const MaxImageBytes: int := 2 * 1024 * 1024
  const MaxUserNameLength: int := 50
  const DefaultImage: string := "https://upload.wikimedia.org/wikipedia/commons/0/0b/Netflix-avatar.png"

  /** A chosen file: its size in bytes and its contents as a data URL. */
  datatype SelectedFile = SelectedFile(size: int, dataUrl: string)

  /** The form's validators: the name is required and at most 50 characters long. */
  predicate FormValid(userName: string) {
    userName != "" && |userName| <= MaxUserNameLength
  }

  /** The image a submission sends: the uploaded one, or the default when there is none. */
  function SubmittedImage(imageUrl: string): (image: string)
    ensures image != ""
    ensures imageUrl != "" ==> image == imageUrl
    ensures imageUrl == "" ==> image == DefaultImage
  {
    if Truthy(imageUrl) then imageUrl else DefaultImage
  }

  /** The request a submission sends. */
  function ProfileRequestOf(profileId: string, userName: string, imageUrl: string): CreateProfileRequest {
    CreateProfileRequest(profileId, userName, Some(SubmittedImage(imageUrl)))
  }

  /** A created profile always has a picture: the cached profile's image is never empty, and is
      the uploaded one when there was one. */
  lemma CreatedProfileHasImage(profileId: string, userName: string, imageUrl: string, created: string, updated: string)
    ensures CachedProfile(ProfileRequestOf(profileId, userName, imageUrl), created, updated).imageUrl != ""
    ensures imageUrl != "" ==> CachedProfile(ProfileRequestOf(profileId, userName, imageUrl), created, updated).imageUrl == imageUrl
    ensures CachedProfile(ProfileRequestOf(profileId, userName, imageUrl), created, updated).id == profileId
  {
  }

  class SetupProfileComponent {
    const auth: AuthService
    const profiles: ProfileService
    var isLoading: bool
    var previewUrl: Option<string>
    var userName: string
    var imageUrl: string

    ghost function Env(): set<object> {
      {this} + profiles.Env()
    }

    constructor (auth: AuthService, profiles: ProfileService)
      requires profiles.auth == auth
      ensures this.auth == auth && this.profiles == profiles
      ensures !isLoading && previewUrl == None && userName == "" && imageUrl == ""
    {
      this.auth := auth;
      this.profiles := profiles;
      isLoading := false;
      previewUrl := None;
      userName := "";
      imageUrl := "";
    }

    /** `onFileSelected`: a file of at most 2 MB becomes the preview and the form's image; a
        larger one, or none, changes nothing. */
    method OnFileSelected(file: Option<SelectedFile>)
      modifies this
      ensures file.Some? && file.value.size <= MaxImageBytes ==>
        previewUrl == Some(file.value.dataUrl) && imageUrl == file.value.dataUrl
      ensures !(file.Some? && file.value.size <= MaxImageBytes) ==>
        previewUrl == old(previewUrl) && imageUrl == old(imageUrl)
      ensures isLoading == old(isLoading) && userName == old(userName)
    {
      if file.Some? {
        if file.value.size > MaxImageBytes {
          return;
        }
        previewUrl := Some(file.value.dataUrl);
        imageUrl := file.value.dataUrl;
      }
    }

    /** `onSubmit`: an invalid form sends nothing. A valid one creates the profile for the
        signed-in user; on success the page navigates home and stays busy, on failure it is
        ready again. */
    method OnSubmit(raw: Response<Option<CreatedBody>>, created: string, updated: string)
      requires profiles.auth == auth
      modifies Env()
      ensures !FormValid(old(userName)) ==> unchanged(Env())
      ensures FormValid(old(userName)) ==>
        var request := ProfileRequestOf(old(auth.GetProfileId()), old(userName), old(imageUrl));
        var d := match Deliver(raw) case Next(body) => CreatedId(body, request) case Error(e) => Error(e);
        && auth.http.sent == old(auth.http.sent) + [Outgoing(CreateRequest(request), TokenIn(old(auth.storage.items)))]
        && (d.Next? ==>
              && profiles.currentProfile == Some(CachedProfile(request, created, updated))
              && isLoading
              && auth.router.history == old(auth.router.history) + [HomeCommands]
              && auth.storage.items == old(auth.storage.items) && auth.currentUser == old(auth.currentUser))
        && (d.Error? ==>
              && profiles.currentProfile == old(profiles.currentProfile)
              && !isLoading
              && auth.Reacted([IsUnauthorized(raw)]))
      ensures userName == old(userName) && imageUrl == old(imageUrl) && previewUrl == old(previewUrl)
      ensures auth.isLoading == old(auth.isLoading)
    {
      if !FormValid(userName) {
        return;
      }
      isLoading := true;
      var request := ProfileRequestOf(auth.GetProfileId(), userName, imageUrl);
      var d := profiles.CreateProfile(request, raw, created, updated);
      CountTrueSingle(IsUnauthorized(raw));
      match d
      case Next(_) =>
        auth.router.Navigate(HomeCommands);
      case Error(_) =>
        isLoading := false;
    }
  }
}
