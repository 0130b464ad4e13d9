/**
 * The profile page: the editable profile record, the copy last loaded or saved (to tell
 * whether there are unsaved edits), the avatar upload and the save. Toasts are returned
 * as values; `Date.now()` is the parameter `now`.
 */
module Profile {
  import opened Types
  import Text
  import Auth

  const ApiBaseUrl := "http://localhost:3000/api/v1"
  /** The API base with its "/api/v1" suffix removed: where relative avatar paths live. */
  const Origin := "http://localhost:3000"

  /** The profile record; `avatarUrl` is the nullable `avatar_url`. */
  datatype UserProfile = UserProfile(
    firstName: string, lastName: string, email: string, phone: string, address: string,
    city: string, state: string, zipCode: string, country: string, avatarUrl: Option<string>)

  /** The nine text fields of the record, all compared by the dirty check. The page renders
      an input for each of them except `Email`, which is shown read-only; the change handler
      itself accepts any field name. */
  datatype FieldName =
    FirstName | LastName | Email | Phone | Address | City | State | ZipCode | Country

  function Get(p: UserProfile, f: FieldName): string
  {
    match f
    case FirstName => p.firstName
    case LastName => p.lastName
    case Email => p.email
    case Phone => p.phone
    case Address => p.address
    case City => p.city
    case State => p.state
    case ZipCode => p.zipCode
    case Country => p.country
  }

  /** The `errors` member of an error reply: absent, an array, or some other value (a string). */
  datatype ErrorsField = Missing | Arr(items: seq<string>) | Scalar(text: string)

  /**
   * A decoded JSON reply of GET or PATCH /user. A text field is None when the key is
   * absent or null; `avatarUrl` is None when the key is absent and Some(None) when it is null.
   */
  datatype ProfileJson = ProfileJson(
    firstName: Option<string>, lastName: Option<string>, email: Option<string>,
    phone: Option<string>, address: Option<string>, city: Option<string>,
    state: Option<string>, zipCode: Option<string>, country: Option<string>,
    avatarUrl: Option<Option<string>>, errors: ErrorsField)

  function Raw(d: ProfileJson, f: FieldName): Option<string>
  {
    match f
    case FirstName => d.firstName
    case LastName => d.lastName
    case Email => d.email
    case Phone => d.phone
    case Address => d.address
    case City => d.city
    case State => d.state
    case ZipCode => d.zipCode
    case Country => d.country
  }

  /** `undefined` and `null` both mean "no avatar" once stored in the record. */
  function AvatarOf(v: Option<Option<string>>): Option<string>
  {
    match v
    case Some(x) => x
    case None => None
  }

  /** The record built from a fetched reply: each text field is the server's value, or ""
      when missing or empty; the avatar passes through. */
  function Normalize(d: ProfileJson): (p: UserProfile)
    ensures forall f :: Raw(d, f).Some? && Raw(d, f).value != "" ==> Get(p, f) == Raw(d, f).value
    ensures forall f :: Raw(d, f).None? || Raw(d, f).value == "" ==> Get(p, f) == ""
    ensures p.avatarUrl == AvatarOf(d.avatarUrl)
  {
    UserProfile(
      OrElse(d.firstName, ""), OrElse(d.lastName, ""), OrElse(d.email, ""),
      OrElse(d.phone, ""), OrElse(d.address, ""), OrElse(d.city, ""),
      OrElse(d.state, ""), OrElse(d.zipCode, ""), OrElse(d.country, ""),
      AvatarOf(d.avatarUrl))
  }

  /** `{ ...prev, [name]: value }`: the named field changes and nothing else does. */
  function SetField(p: UserProfile, f: FieldName, v: string): (r: UserProfile)
    ensures Get(r, f) == v
    ensures forall g :: g != f ==> Get(r, g) == Get(p, g)
    ensures r.avatarUrl == p.avatarUrl
  {
    match f
    case FirstName => p.(firstName := v)
    case LastName => p.(lastName := v)
    case Email => p.(email := v)
    case Phone => p.(phone := v)
    case Address => p.(address := v)
    case City => p.(city := v)
    case State => p.(state := v)
    case ZipCode => p.(zipCode := v)
    case Country => p.(country := v)
  }

  /** A key the reply carries overrides the field; an absent key keeps it. */
  function Overlay(current: string, v: Option<string>): string
  {
    if v.Some? then v.value else current
  }

  /** `{ ...profile, ...data }` after a save. */
  function Merge(p: UserProfile, d: ProfileJson): (r: UserProfile)
    ensures forall f :: Raw(d, f).Some? ==> Get(r, f) == Raw(d, f).value
    ensures forall f :: Raw(d, f).None? ==> Get(r, f) == Get(p, f)
    ensures d.avatarUrl.Some? ==> r.avatarUrl == d.avatarUrl.value
    ensures d.avatarUrl.None? ==> r.avatarUrl == p.avatarUrl
  {
    UserProfile(
      Overlay(p.firstName, d.firstName), Overlay(p.lastName, d.lastName), Overlay(p.email, d.email),
      Overlay(p.phone, d.phone), Overlay(p.address, d.address), Overlay(p.city, d.city),
      Overlay(p.state, d.state), Overlay(p.zipCode, d.zipCode), Overlay(p.country, d.country),
      if d.avatarUrl.Some? then d.avatarUrl.value else p.avatarUrl)
  }

  /** Two records with their avatars blanked are the same exactly when every text field agrees. */
  lemma TextFieldsDecide(a: UserProfile, b: UserProfile)
    ensures a.(avatarUrl := None) == b.(avatarUrl := None) <==> forall f :: Get(a, f) == Get(b, f)
  {
    if forall f :: Get(a, f) == Get(b, f) {
      assert Get(a, FirstName) == Get(b, FirstName) && Get(a, LastName) == Get(b, LastName);
      assert Get(a, Email) == Get(b, Email) && Get(a, Phone) == Get(b, Phone);
      assert Get(a, Address) == Get(b, Address) && Get(a, City) == Get(b, City);
      assert Get(a, State) == Get(b, State) && Get(a, ZipCode) == Get(b, ZipCode);
      assert Get(a, Country) == Get(b, Country);
    }
  }

  /** `isModified`: the two records compared with `avatar_url` set to null on both sides;
      false while nothing has been loaded. */
  function IsModified(profile: UserProfile, initial: Option<UserProfile>): (r: bool)
    ensures initial.None? ==> !r
    ensures initial.Some? ==> (r <==> exists f :: Get(profile, f) != Get(initial.value, f))
  {
    match initial
    case None => false
    case Some(i) =>
      TextFieldsDecide(profile, i);
      profile.(avatarUrl := None) != i.(avatarUrl := None)
  }

  predicate StartsWith(s: string, prefix: string)
  {
    |prefix| <= |s| && s[..|prefix|] == prefix
  }

  /** `getAvatarUrl`: nothing for a missing or empty URL, an absolute URL as it is, and a
      relative path prefixed with the origin; whatever it gives starts with "http". */
  function GetAvatarUrl(url: Option<string>): (r: Option<string>)
    ensures r.None? <==> url.None? || url.value == ""
    ensures url.Some? && StartsWith(url.value, "http") ==> r == url
    ensures url.Some? && url.value != "" && !StartsWith(url.value, "http") ==> r == Some(Origin + url.value)
    ensures r.Some? ==> StartsWith(r.value, "http")
  {
    match url
    case None => None
    case Some(u) =>
      if u == "" then None
      else if StartsWith(u, "http") then Some(u)
      else
        assert (Origin + u)[..4] == Origin[..4];
        Some(Origin + u)
  }

  /** The upload's error toast: a joined `errors` array, or the fixed default. */
  function UploadErrorMessage(errors: ErrorsField): (m: string)
    ensures errors.Arr? ==> m == Text.Join(errors.items, ", ")
    ensures !errors.Arr? ==> m == "Failed to upload avatar"
  {
    if errors.Arr? then Text.Join(errors.items, ", ") else "Failed to upload avatar"
  }

  /** The save's error toast: a joined `errors` array, any other truthy `errors` as it is,
      or the fixed default. */
  function SaveErrorMessage(errors: ErrorsField): (m: string)
    ensures errors.Arr? ==> m == Text.Join(errors.items, ", ")
    ensures errors.Scalar? && errors.text != "" ==> m == errors.text
    ensures errors.Missing? || errors == Scalar("") ==> m == "Failed to update profile"
  {
    match errors
    case Missing => "Failed to update profile"
    case Arr(items) => Text.Join(items, ", ")
    case Scalar(t) => if t != "" then t else "Failed to update profile"
  }

  /** The two handlers agree on an `errors` array, and a one-message array shows that
      message; they differ only in their defaults and in how a non-array is treated. */
  lemma {:induction false} ErrorMessagesAgreeOnArrays(items: seq<string>)
    ensures UploadErrorMessage(Arr(items)) == SaveErrorMessage(Arr(items))
    ensures |items| == 1 ==> SaveErrorMessage(Arr(items)) == items[0]
    ensures |items| >= 1 ==>
      |SaveErrorMessage(Arr(items))| == Text.TotalLength(items) + (|items| - 1) * 2
  {
    if |items| >= 1 {
      Text.JoinLength(items, ", ");
    }
  }

  /** The "QUANTUM ID" line: the user id left-padded with '0' to eight characters, or
      "UNKNOWN" without an id. */
  function DisplayId(id: Option<int>): (r: string)
    ensures id.None? ==> r == "UNKNOWN"
    ensures id.Some? ==> |r| >= 8 && |r| >= |Text.IntToString(id.value)|
    ensures id.Some? ==> r[|r| - |Text.IntToString(id.value)|..] == Text.IntToString(id.value)
    ensures id.Some? ==> forall i :: 0 <= i < |r| - |Text.IntToString(id.value)| ==> r[i] == '0'
  {
    match id
    case None => "UNKNOWN"
    case Some(n) => Text.PadStart(Text.IntToString(n), 8, '0')
  }

  /** An id below 10^8 shows as exactly eight digits that read back as the id. */
  lemma {:induction false} DisplayIdRoundTrip(id: int)
    requires 0 <= id < 100000000
    ensures |DisplayId(Some(id))| == 8
    ensures Text.AllDigits(DisplayId(Some(id)))
    ensures Text.DigitsValue(DisplayId(Some(id))) == id
  {
    var s := Text.NatToString(id);
    assert Text.Pow10(8) == 100000000 by {
      assert Text.Pow10(4) == 10000;
    }
    Text.NatToStringShort(id, 8);
    Text.NatToStringRoundTrip(id);
    Text.LeadingZerosValue(8 - |s|, s);
  }

  /** The message of a toast the page shows. */
  datatype Toast = Success(message: string) | Failure(message: string)

  /** The PATCH /user body of a save: the eight editable fields; neither the email nor the
      avatar is sent. */
  datatype SaveRequest = SaveRequest(
    firstName: string, lastName: string, phone: string, address: string,
    city: string, state: string, zipCode: string, country: string)

  function RequestOf(p: UserProfile): (req: SaveRequest)
    ensures req.firstName == p.firstName && req.lastName == p.lastName && req.phone == p.phone
    ensures req.address == p.address && req.city == p.city && req.state == p.state
    ensures req.zipCode == p.zipCode && req.country == p.country
  {
    SaveRequest(p.firstName, p.lastName, p.phone, p.address, p.city, p.state, p.zipCode, p.country)
  }

  /** `${data.avatar_url}?v=${Date.now()}`, where a missing or null URL prints as text. */
  function CacheBusted(v: Option<Option<string>>, now: int): (r: string)
    ensures v.Some? && v.value.Some? ==> |r| > |v.value.value| && r[..|v.value.value|] == v.value.value
  {
    var base := match v
      case None => "undefined"
      case Some(None) => "null"
      case Some(Some(u)) => u;
    base + "?v=" + Text.IntToString(now)
  }

  const Blank := UserProfile("", "", "", "", "", "", "", "", "", None)

  class ProfilePage {
    var profile: UserProfile
    var initialProfile: Option<UserProfile>
    var loading: bool
    var saving: bool

    constructor ()
      ensures profile == Blank && initialProfile.None? && loading && !saving
      ensures !IsModified(profile, initialProfile)
    {
      profile := Blank;
      initialProfile := None;
      loading := true;
      saving := false;
    }

    /**
     * The mount effect. Without a user the page redirects home and changes nothing.
     * Otherwise GET /user: an ok reply sets both records to its normalised form; an error
     * status is ignored; a throw shows a toast; `loading` ends false.
     */
    method Load(user: Option<User>, reply: Outcome<ProfileJson>)
      returns (redirect: bool, toast: Option<Toast>)
      modifies this
      ensures redirect <==> user.None?
      ensures redirect ==> unchanged(this) && toast.None?
      ensures !redirect ==> !loading && saving == old(saving)
      ensures !redirect && reply.Resolved? && reply.ok ==>
        profile == Normalize(reply.body) && initialProfile == Some(profile) &&
        !IsModified(profile, initialProfile) && toast.None?
      ensures !redirect && reply.Resolved? && !reply.ok ==>
        profile == old(profile) && initialProfile == old(initialProfile) && toast.None?
      ensures !redirect && reply.Threw? ==>
        profile == old(profile) && initialProfile == old(initialProfile) &&
        toast == Some(Failure("Failed to load profile data"))
    {
      toast := None;
      if user.None? {
        return true, None;
      }
      redirect := false;
      match reply {
        case Threw(_) =>
          toast := Some(Failure("Failed to load profile data"));
        case Resolved(ok, data) =>
          if ok {
            var userProfile := Normalize(data);
            profile := userProfile;
            initialProfile := Some(userProfile);
          }
      }
      loading := false;
    }

    /** An input's change handler. */
    method HandleInputChange(f: FieldName, value: string)
      modifies this`profile
      ensures profile == SetField(old(profile), f, value)
      ensures initialProfile.Some? && value != Get(initialProfile.value, f) ==>
        IsModified(profile, initialProfile)
    {
      profile := SetField(profile, f, value);
    }

    /** The save button is enabled exactly when nothing is saving and there are edits. */
    function SaveEnabled(): (r: bool)
      reads this
      ensures r <==> !saving && IsModified(profile, initialProfile)
    {
      !(saving || !IsModified(profile, initialProfile))
    }

    /**
     * The avatar file input. Without a file nothing happens. An ok reply stores the new,
     * cache-busted URL in both records (so the avatar never counts as an unsaved edit);
     * otherwise the records stay and the toast says why; `saving` ends false.
     */
    method HandleFileChange(hasFile: bool, reply: Outcome<ProfileJson>, now: int)
      returns (toast: Option<Toast>)
      modifies this
      ensures !hasFile ==> unchanged(this) && toast.None?
      ensures hasFile ==> !saving && loading == old(loading)
      ensures IsModified(profile, initialProfile) == old(IsModified(profile, initialProfile))
      ensures hasFile && reply.Resolved? && reply.ok ==>
        var url := CacheBusted(reply.body.avatarUrl, now);
        profile == old(profile).(avatarUrl := Some(url)) &&
        (old(initialProfile).Some? ==> initialProfile == Some(old(initialProfile).value.(avatarUrl := Some(url)))) &&
        (old(initialProfile).None? ==> initialProfile.None?) &&
        toast == Some(Success("Avatar updated successfully"))
      ensures hasFile && reply.Resolved? && !reply.ok ==>
        profile == old(profile) && initialProfile == old(initialProfile) &&
        toast == Some(Failure(UploadErrorMessage(reply.body.errors)))
      ensures hasFile && reply.Threw? ==>
        profile == old(profile) && initialProfile == old(initialProfile) &&
        toast == Some(Failure("Error uploading avatar. Please try again."))
    {
      if !hasFile {
        return None;
      }
      saving := true;
      match reply {
        case Threw(_) =>
          toast := Some(Failure("Error uploading avatar. Please try again."));
        case Resolved(ok, data) =>
          if ok {
            var newAvatarUrl := CacheBusted(data.avatarUrl, now);
            var before := profile;
            profile := profile.(avatarUrl := Some(newAvatarUrl));
            if initialProfile.Some? {
              var initial := initialProfile.value;
              initialProfile := Some(initial.(avatarUrl := Some(newAvatarUrl)));
              AvatarIgnored(before, initial, newAvatarUrl);
            }
            toast := Some(Success("Avatar updated successfully"));
          } else {
            toast := Some(Failure(UploadErrorMessage(data.errors)));
          }
      }
      saving := false;
    }

    /**
     * The form submit: PATCH /user with the editable fields. An ok reply overlays the
     * reply on the profile and makes that the saved copy too, so no edit is left pending;
     * otherwise the records stay and the toast says why; `saving` ends false.
     */
    method HandleSubmit(reply: Outcome<ProfileJson>) returns (request: SaveRequest, toast: Toast)
      modifies this`profile, this`initialProfile, this`saving
      ensures request == RequestOf(old(profile))
      ensures !saving
      ensures reply.Resolved? && reply.ok ==>
        profile == Merge(old(profile), reply.body) && initialProfile == Some(profile) &&
        !IsModified(profile, initialProfile) && toast == Success("Profile updated successfully")
      ensures reply.Resolved? && !reply.ok ==>
        profile == old(profile) && initialProfile == old(initialProfile) &&
        toast == Failure(SaveErrorMessage(reply.body.errors))
      ensures reply.Threw? ==>
        profile == old(profile) && initialProfile == old(initialProfile) &&
        toast == Failure("Network error. Please try again.")
    {
      saving := true;
      request := RequestOf(profile);
      match reply {
        case Threw(_) =>
          toast := Failure("Network error. Please try again.");
        case Resolved(ok, data) =>
          if ok {
            var newProfile := Merge(profile, data);
            profile := newProfile;
            initialProfile := Some(newProfile);
            toast := Success("Profile updated successfully");
          } else {
            toast := Failure(SaveErrorMessage(data.errors));
          }
      }
      saving := false;
    }

    /** The avatar image's `onError`: drop the URL from the profile (not from the saved copy). */
    method AvatarLoadFailed()
      modifies this`profile
      ensures profile == old(profile).(avatarUrl := None)
      ensures IsModified(profile, initialProfile) == old(IsModified(profile, initialProfile))
    {
      profile := profile.(avatarUrl := None);
    }

    /** "Disconnect": sign out of the session, leave a toast and go home. */
    method HandleLogout(auth: Auth.Session) returns (toast: Toast, target: string)
      modifies auth
      ensures auth.user.None? && auth.storage == old(auth.storage) - {Auth.TokenKey, Auth.UserKey}
      ensures auth.error == old(auth.error) && auth.loading == old(auth.loading)
      ensures toast == Success("Disconnected successfully") && target == "/"
    {
      auth.Logout();
      toast := Success("Disconnected successfully");
      target := "/";
    }
  }

  /** Changing the avatar on both sides leaves the dirty check where it was. */
  lemma AvatarIgnored(p: UserProfile, i: UserProfile, url: string)
    ensures IsModified(p.(avatarUrl := Some(url)), Some(i.(avatarUrl := Some(url)))) ==
            IsModified(p, Some(i))
  {
    assert p.(avatarUrl := Some(url)).(avatarUrl := None) == p.(avatarUrl := None);
    assert i.(avatarUrl := Some(url)).(avatarUrl := None) == i.(avatarUrl := None);
  }

  /** Editing one field of a freshly loaded record marks it modified exactly when the new
      value differs from the loaded one. */
  lemma SetFieldModifies(p: UserProfile, f: FieldName, v: string)
    ensures IsModified(SetField(p, f, v), Some(p)) <==> v != Get(p, f)
  {
    if v != Get(p, f) {
      assert Get(SetField(p, f, v), f) != Get(p, f);
    }
  }

  /**
   * The save button over a page's life: disabled once the profile is loaded, enabled by an
   * edit exactly when the value differs from the loaded one, and disabled again by a
   * successful save.
   */
  method EditThenSave(user: User, data: ProfileJson, f: FieldName, value: string, saved: ProfileJson)
    returns (afterLoad: bool, afterEdit: bool, afterSave: bool)
    ensures !afterLoad
    ensures afterEdit <==> value != Get(Normalize(data), f)
    ensures !afterSave
  {
    var page := new ProfilePage();
    var _, _ := page.Load(Some(user), Resolved(true, data));
    afterLoad := page.SaveEnabled();
    page.HandleInputChange(f, value);
    SetFieldModifies(Normalize(data), f, value);
    afterEdit := page.SaveEnabled();
    var _, _ := page.HandleSubmit(Resolved(true, saved));
    afterSave := page.SaveEnabled();
  }
}
