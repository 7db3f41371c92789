/**
 * The profile header: the avatar image's source, the avatar upload's
 * validation (type first, then size), and the upload's completion, which
 * shows the picked image and hands it to the auth store's profile update.
 */
module ProfileHeader {
  import opened Domain

  /** `2 * 1024 * 1024`: the largest accepted upload, in bytes. */
  const MaxUploadBytes: nat := 2 * 1024 * 1024

  const NotImageAlert := "Please select an image file"
  const TooLargeAlert := "Image size must be under 2MB"
  const DefaultAvatar := "/avatar.png"

  datatype UploadCheck = NotAnImage | TooLarge | Accepted

  /** The two checks of `handleImageUpload`, in their order: the type decides before the size. */
  function ValidateUpload(f: FileInfo): (c: UploadCheck)
    ensures c == NotAnImage <==> !IsImageType(f)
    ensures c == TooLarge <==> IsImageType(f) && f.size > MaxUploadBytes
    ensures c == Accepted <==> IsImageType(f) && f.size <= MaxUploadBytes
  {
    if !IsImageType(f) then NotAnImage
    else if f.size > MaxUploadBytes then TooLarge
    else Accepted
  }

  /** A file of exactly 2 MiB passes, one byte more does not. */
  lemma UploadLimitBoundary(mimeType: string)
    requires StartsWith(mimeType, "image/")
    ensures ValidateUpload(FileInfo(mimeType, 2097152)) == Accepted
    ensures ValidateUpload(FileInfo(mimeType, 2097153)) == TooLarge
  {
  }

  /** The avatar's `src`: the first truthy of the picked image, the stored picture and the default. */
  function AvatarSrc(selectedImg: Option<string>, profilePic: string): (src: string)
    ensures src != ""
    ensures Truthy(selectedImg) ==> src == selectedImg.value
    ensures !Truthy(selectedImg) && profilePic != "" ==> src == profilePic
    ensures !Truthy(selectedImg) && profilePic == "" ==> src == DefaultAvatar
  {
    if Truthy(selectedImg) then selectedImg.value
    else if profilePic != "" then profilePic
    else DefaultAvatar
  }

  /** What the reader's `result` holds when it finishes: a data URL string, or something else. */
  datatype ReadResult = Text(data: string) | NotText

  /** What the header shows: the avatar source and the user's name. */
  datatype View = View(avatarSrc: string, fullName: string)

  class Header {
    var selectedImg: Option<string>
    /** The values passed to the auth store's `updateProfile`, in order. */
    var profileUpdates: seq<string>

    constructor ()
      ensures selectedImg == None && profileUpdates == []
    {
      selectedImg, profileUpdates := None, [];
    }

    /**
     * `handleImageUpload`: no file does nothing; a refused file raises the
     * alert; an accepted one starts a read whose completion is `OnUploadRead`.
     */
    method HandleImageUpload(file: Option<FileInfo>) returns (alert: Option<string>, readStarted: bool)
      ensures file.None? ==> alert == None && !readStarted
      ensures file.Some? && !IsImageType(file.value) ==> alert == Some(NotImageAlert) && !readStarted
      ensures file.Some? && IsImageType(file.value) && file.value.size > MaxUploadBytes ==>
        alert == Some(TooLargeAlert) && !readStarted
      ensures readStarted <==> file.Some? && ValidateUpload(file.value) == Accepted
      ensures readStarted ==> alert == None
    {
      if file.None? {
        return None, false;
      }
      match ValidateUpload(file.value)
      case NotAnImage =>
        return Some(NotImageAlert), false;
      case TooLarge =>
        return Some(TooLargeAlert), false;
      case Accepted =>
        return None, true;
    }

    /** The reader's `onloadend`: a string result is shown and sent as the new profile picture. */
    method OnUploadRead(result: ReadResult)
      modifies this
      ensures result.NotText? ==> selectedImg == old(selectedImg) && profileUpdates == old(profileUpdates)
      ensures result.Text? ==>
        selectedImg == Some(result.data) && profileUpdates == old(profileUpdates) + [result.data]
    {
      if result.NotText? {
        return;
      }
      selectedImg := Some(result.data);
      profileUpdates := profileUpdates + [result.data];
    }

    /** The rendered header: nothing without a logged-in user. */
    function Render(authUser: Option<PublicUser>): (v: Option<View>)
      reads this
      ensures authUser.None? <==> v.None?
      ensures v.Some? ==>
        v.value.fullName == authUser.value.fullName && v.value.avatarSrc != "" &&
        v.value.avatarSrc == AvatarSrc(selectedImg, authUser.value.profilePic)
    {
      if authUser.None? then None
      else Some(View(AvatarSrc(selectedImg, authUser.value.profilePic), authUser.value.fullName))
    }
  }
}
