/** The logic of src/pages/ProfilePage.tsx: `getInitials`, the favourites
    filter and the state its handlers update. The calls for favourite ids,
    for the creator's videos, and to `updateProfile` / `resetPassword` are
    outside the model; their outcomes are parameters. */
module ProfilePage {
  import opened Strings
  import opened Types

  const LoginRoute := "/auth"
  const FavoritesCreator := "MKBHD"
  const LoadFailed := "Failed to load favorite videos"
  const PasswordMismatch := "New passwords do not match"
  const ProfileUpdated := "Profile updated successfully"
  const PasswordResetDone := "Password reset successfully"

  // ---------------------------------------------------------------------
  // getInitials

  /** `n[0]` of one piece, joined: the first character, or nothing for an
      empty piece (where `n[0]` is `undefined` and `join` writes nothing). */
  function First(piece: string): (r: string)
    ensures piece == "" ==> r == ""
    ensures piece != "" ==> r == [piece[0]]
  {
    if piece == "" then "" else [piece[0]]
  }

  function Firsts(pieces: seq<string>): string
  {
    if pieces == [] then "" else First(pieces[0]) + Firsts(pieces[1..])
  }

  /** `name.split(' ').map(n => n[0]).join('').toUpperCase()`. */
  function Initials(name: string): (initials: string)
    ensures initials == UpperAll(WordStarts(name, true))
  {
    FirstsAreWordStarts(name);
    UpperAll(Firsts(Split(name, ' ')))
  }

  /** The reference: scanning the name, keep each character that is not a
      space and starts a word (comes first, or right after a space). */
  function WordStarts(s: string, atStart: bool): string
  {
    if s == [] then ""
    else if s[0] == ' ' then WordStarts(s[1..], true)
    else (if atStart then [s[0]] else "") + WordStarts(s[1..], false)
  }

  function NonEmptyCount(pieces: seq<string>): (n: nat)
    ensures n <= |pieces|
  {
    if pieces == [] then 0 else (if pieces[0] == "" then 0 else 1) + NonEmptyCount(pieces[1..])
  }

  /** Splitting and taking first characters is the scan for word starts:
      from the start of the name, and from just after its first piece. */
  lemma {:induction false} FirstsAreWordStarts(s: string)
    ensures Firsts(Split(s, ' ')) == WordStarts(s, true)
    ensures Firsts(Split(s, ' ')[1..]) == WordStarts(s, false)
    decreases |s|
  {
    if s == [] {
      assert Split(s, ' ') == [""];
    } else {
      var t := s[1..];
      var rest := Split(t, ' ');
      FirstsAreWordStarts(t);
      if s[0] == ' ' {
        assert Split(s, ' ') == [""] + rest;
        assert Split(s, ' ')[1..] == rest;
      } else {
        var head := [s[0]] + rest[0];
        assert Split(s, ' ') == [head] + rest[1..];
        assert Split(s, ' ')[1..] == rest[1..];
        assert First(head) == [s[0]];
      }
    }
  }

  lemma {:induction false} FirstsLength(pieces: seq<string>)
    ensures |Firsts(pieces)| == NonEmptyCount(pieces)
    decreases |pieces|
  {
    if pieces != [] {
      FirstsLength(pieces[1..]);
    }
  }

  /** No space is ever kept by the scan. */
  lemma {:induction false} WordStartsHaveNoSpace(s: string, atStart: bool)
    ensures ' ' !in WordStarts(s, atStart)
    decreases |s|
  {
    if s != [] {
      WordStartsHaveNoSpace(s[1..], s[0] == ' ');
    }
  }

  /** `getInitials`: the upper-cased word starts of the name, one per
      non-empty piece between spaces, and never a space. */
  lemma InitialsSpec(name: string)
    ensures Initials(name) == UpperAll(WordStarts(name, true))
    ensures |Initials(name)| == NonEmptyCount(Split(name, ' '))
    ensures ' ' !in Initials(name)
  {
    FirstsAreWordStarts(name);
    FirstsLength(Split(name, ' '));
    var starts := WordStarts(name, true);
    WordStartsHaveNoSpace(name, true);
    var r := Initials(name);
    forall i | 0 <= i < |r|
      ensures r[i] != ' '
    {
      assert starts[i] != ' ';
    }
  }

  // ---------------------------------------------------------------------
  // The favourites filter

  /** `r` keeps some of the elements of `s`, in their order. */
  predicate SubsequenceOf<T(==)>(r: seq<T>, s: seq<T>)
    decreases |s|
  {
    if r == [] then true
    else if s == [] then false
    else (r[0] == s[0] && SubsequenceOf(r[1..], s[1..])) || SubsequenceOf(r, s[1..])
  }

  /** `videos.filter(video => favoriteIds.includes(video.id))`: an
      order-keeping selection holding exactly the videos whose id is a
      favourite. */
  function FilterFavorites(videos: seq<VideoInfo>, ids: seq<string>): (kept: seq<VideoInfo>)
    ensures |kept| <= |videos|
    ensures SubsequenceOf(kept, videos)
    ensures forall v :: v in kept <==> v in videos && v.id in ids
    ensures forall v :: multiset(kept)[v] == if v.id in ids then multiset(videos)[v] else 0
    decreases |videos|
  {
    if videos == [] then []
    else
      var rest := FilterFavorites(videos[1..], ids);
      assert videos == [videos[0]] + videos[1..];
      if videos[0].id in ids then
        var kept := [videos[0]] + rest;
        assert kept[1..] == rest;
        KeepStep(videos, ids, rest);
        CountsGiveMembership(kept, videos, ids);
        kept
      else
        SubsequenceSkip(rest, videos);
        SkipStep(videos, ids, rest);
        CountsGiveMembership(rest, videos, ids);
        rest
  }

  /** A favourite in front is kept, once more than the rest counts it. */
  lemma KeepStep(videos: seq<VideoInfo>, ids: seq<string>, rest: seq<VideoInfo>)
    requires videos != [] && videos[0].id in ids
    requires forall v :: multiset(rest)[v] == if v.id in ids then multiset(videos[1..])[v] else 0
    ensures forall v :: multiset([videos[0]] + rest)[v] == if v.id in ids then multiset(videos)[v] else 0
  {
    var x, kept := videos[0], [videos[0]] + rest;
    assert videos == [x] + videos[1..];
    assert multiset(videos) == multiset{x} + multiset(videos[1..]);
    assert multiset(kept) == multiset{x} + multiset(rest);
  }

  /** Any other video in front is skipped without changing the counts. */
  lemma SkipStep(videos: seq<VideoInfo>, ids: seq<string>, rest: seq<VideoInfo>)
    requires videos != [] && videos[0].id !in ids
    requires forall v :: multiset(rest)[v] == if v.id in ids then multiset(videos[1..])[v] else 0
    ensures forall v :: multiset(rest)[v] == if v.id in ids then multiset(videos)[v] else 0
  {
    var x := videos[0];
    assert videos == [x] + videos[1..];
    assert multiset(videos) == multiset{x} + multiset(videos[1..]);
  }

  /** A video occurs exactly when it is counted. */
  lemma CountsGiveMembership(kept: seq<VideoInfo>, videos: seq<VideoInfo>, ids: seq<string>)
    requires forall v :: multiset(kept)[v] == if v.id in ids then multiset(videos)[v] else 0
    ensures forall v :: v in kept <==> v in videos && v.id in ids
  {
    forall v
      ensures v in kept <==> v in videos && v.id in ids
    {
      assert v in kept <==> multiset(kept)[v] > 0;
      assert v in videos <==> multiset(videos)[v] > 0;
    }
  }

  lemma SubsequenceSkip<T>(r: seq<T>, s: seq<T>)
    requires s != [] && SubsequenceOf(r, s[1..])
    ensures SubsequenceOf(r, s)
  {
  }

  /** With no favourite ids nothing is kept. */
  lemma {:induction false} NoIdsNoFavorites(videos: seq<VideoInfo>)
    ensures FilterFavorites(videos, []) == []
    decreases |videos|
  {
    if videos != [] {
      NoIdsNoFavorites(videos[1..]);
    }
  }

  // ---------------------------------------------------------------------
  // The page's state

  datatype ProfileData = ProfileData(username: string, email: string)

  datatype ProfileField = Username | Email
  datatype PasswordField = CurrentPassword | NewPassword | ConfirmPassword

  function ProfileValue(d: ProfileData, f: ProfileField): string
  {
    match f
    case Username => d.username
    case Email => d.email
  }

  /** `{ ...prev, [name]: value }` on the profile form. */
  function WithProfileField(d: ProfileData, f: ProfileField, value: string): (r: ProfileData)
    ensures ProfileValue(r, f) == value
    ensures forall g :: g != f ==> ProfileValue(r, g) == ProfileValue(d, g)
  {
    match f
    case Username => d.(username := value)
    case Email => d.(email := value)
  }

  function PasswordValue(d: ResetPasswordRequest, f: PasswordField): string
  {
    match f
    case CurrentPassword => d.currentPassword
    case NewPassword => d.newPassword
    case ConfirmPassword => d.confirmPassword
  }

  /** `{ ...prev, [name]: value }` on the password form. */
  function WithPasswordField(d: ResetPasswordRequest, f: PasswordField, value: string): (r: ResetPasswordRequest)
    ensures PasswordValue(r, f) == value
    ensures forall g :: g != f ==> PasswordValue(r, g) == PasswordValue(d, g)
  {
    match f
    case CurrentPassword => d.(currentPassword := value)
    case NewPassword => d.(newPassword := value)
    case ConfirmPassword => d.(confirmPassword := value)
  }

  const EmptyPasswords := ResetPasswordRequest("", "", "")

  class Page {
    var favoriteVideos: seq<VideoInfo>
    var loading: bool
    var error: Option<string>
    var successMessage: Option<string>
    var showProfileEdit: bool
    var showPasswordReset: bool
    var profileData: ProfileData
    var passwordData: ResetPasswordRequest

    /** The first render: every form field empty, nothing shown. */
    constructor ()
      ensures favoriteVideos == [] && !loading && error == None && successMessage == None
      ensures !showProfileEdit && !showPasswordReset
      ensures profileData == ProfileData("", "") && passwordData == EmptyPasswords
    {
      favoriteVideos := [];
      loading := false;
      error := None;
      successMessage := None;
      showProfileEdit := false;
      showPasswordReset := false;
      profileData := ProfileData("", "");
      passwordData := EmptyPasswords;
    }

    /** The effect on `user`: a signed-in user's name and email fill the
        profile form (empty for empty ones); no user leaves it. */
    method InitProfile(user: Option<User>)
      modifies this
      ensures user.Some? ==> profileData == ProfileData(user.value.username, user.value.email)
      ensures user == None ==> profileData == old(profileData)
      ensures passwordData == old(passwordData) && error == old(error) && favoriteVideos == old(favoriteVideos)
      ensures loading == old(loading) && successMessage == old(successMessage)
      ensures showProfileEdit == old(showProfileEdit) && showPasswordReset == old(showPasswordReset)
    {
      if user.Some? {
        profileData := ProfileData(OrDefault(user.value.username, ""), OrDefault(user.value.email, ""));
      }
    }

    /** `fetchFavorites` with the navigation guard around it. A signed-out
        visitor is sent to the login route and nothing is asked for; no
        favourite ids clear the list without fetching videos; otherwise the
        creator's videos are fetched and filtered. Any failure sets the
        fixed error and keeps the old list. */
    method FetchFavorites(isAuthenticated: bool, ids: Settled<seq<string>>, videos: Settled<seq<VideoInfo>>)
      returns (navigatedTo: Option<string>, creatorQueried: Option<string>)
      modifies this
      ensures !isAuthenticated ==>
                && navigatedTo == Some(LoginRoute) && creatorQueried == None
                && favoriteVideos == old(favoriteVideos) && loading == old(loading) && error == old(error)
      ensures isAuthenticated ==> navigatedTo == None && !loading
      ensures isAuthenticated && ids.Rejected? ==>
                && creatorQueried == None && error == Some(LoadFailed) && favoriteVideos == old(favoriteVideos)
      ensures isAuthenticated && ids == Resolved([]) ==>
                creatorQueried == None && error == None && favoriteVideos == []
      ensures isAuthenticated && ids.Resolved? && ids.value != [] ==>
                && creatorQueried == Some(FavoritesCreator)
                && (videos.Resolved? ==> error == None && favoriteVideos == FilterFavorites(videos.value, ids.value))
                && (videos.Rejected? ==> error == Some(LoadFailed) && favoriteVideos == old(favoriteVideos))
      ensures profileData == old(profileData) && passwordData == old(passwordData)
      ensures successMessage == old(successMessage)
      ensures showProfileEdit == old(showProfileEdit) && showPasswordReset == old(showPasswordReset)
    {
      if !isAuthenticated {
        return Some(LoginRoute), None;
      }
      navigatedTo, creatorQueried := None, None;
      loading := true;
      error := None;
      match ids {
        case Rejected(_) =>
          error := Some(LoadFailed);
        case Resolved(favoriteIds) =>
          if |favoriteIds| == 0 {
            favoriteVideos := [];
          } else {
            creatorQueried := Some(FavoritesCreator);
            match videos {
              case Rejected(_) =>
                error := Some(LoadFailed);
              case Resolved(mockVideos) =>
                favoriteVideos := FilterFavorites(mockVideos, favoriteIds);
            }
          }
      }
      loading := false;
    }

    /** `handleProfileChange`: only the named field changes. */
    method HandleProfileChange(name: ProfileField, value: string)
      modifies this
      ensures profileData == WithProfileField(old(profileData), name, value)
      ensures passwordData == old(passwordData) && error == old(error) && loading == old(loading)
      ensures favoriteVideos == old(favoriteVideos) && successMessage == old(successMessage)
      ensures showProfileEdit == old(showProfileEdit) && showPasswordReset == old(showPasswordReset)
    {
      profileData := WithProfileField(profileData, name, value);
    }

    /** `handlePasswordChange`: only the named field changes. */
    method HandlePasswordChange(name: PasswordField, value: string)
      modifies this
      ensures passwordData == WithPasswordField(old(passwordData), name, value)
      ensures profileData == old(profileData) && error == old(error) && loading == old(loading)
      ensures favoriteVideos == old(favoriteVideos) && successMessage == old(successMessage)
      ensures showProfileEdit == old(showProfileEdit) && showPasswordReset == old(showPasswordReset)
    {
      passwordData := WithPasswordField(passwordData, name, value);
    }

    /** `handleProfileUpdate`: `updateProfile(profileData)`, then the
        success message and the editor closed, or the thrown message. */
    method HandleProfileUpdate(outcome: Settled<()>) returns (sent: ProfileData)
      modifies this
      ensures sent == old(profileData)
      ensures outcome.Resolved? ==>
                error == None && successMessage == Some(ProfileUpdated) && !showProfileEdit
      ensures outcome.Rejected? ==>
                && error == Some(outcome.message)
                && successMessage == old(successMessage) && showProfileEdit == old(showProfileEdit)
      ensures !loading
      ensures profileData == old(profileData) && passwordData == old(passwordData)
      ensures favoriteVideos == old(favoriteVideos) && showPasswordReset == old(showPasswordReset)
    {
      sent := profileData;
      loading := true;
      error := None;
      if outcome.Resolved? {
        successMessage := Some(ProfileUpdated);
        showProfileEdit := false;
      } else {
        error := Some(outcome.message);
      }
      loading := false;
    }

    /** `handlePasswordReset`: differing new and confirmed passwords are
        refused before any call; otherwise `resetPassword(passwordData)`,
        and on success all three fields are cleared. */
    method HandlePasswordReset(outcome: Settled<()>) returns (sent: Option<ResetPasswordRequest>)
      modifies this
      ensures old(passwordData.newPassword) != old(passwordData.confirmPassword) ==>
                && sent == None && error == Some(PasswordMismatch)
                && passwordData == old(passwordData) && loading == old(loading)
                && successMessage == old(successMessage) && showPasswordReset == old(showPasswordReset)
      ensures old(passwordData.newPassword) == old(passwordData.confirmPassword) ==>
                && sent == Some(old(passwordData)) && !loading
                && (outcome.Resolved? ==>
                      && error == None && successMessage == Some(PasswordResetDone)
                      && !showPasswordReset && passwordData == EmptyPasswords)
                && (outcome.Rejected? ==>
                      && error == Some(outcome.message) && passwordData == old(passwordData)
                      && successMessage == old(successMessage) && showPasswordReset == old(showPasswordReset))
      ensures profileData == old(profileData) && favoriteVideos == old(favoriteVideos)
      ensures showProfileEdit == old(showProfileEdit)
    {
      if passwordData.newPassword != passwordData.confirmPassword {
        error := Some(PasswordMismatch);
        return None;
      }
      sent := Some(passwordData);
      loading := true;
      error := None;
      if outcome.Resolved? {
        successMessage := Some(PasswordResetDone);
        showPasswordReset := false;
        passwordData := EmptyPasswords;
      } else {
        error := Some(outcome.message);
      }
      loading := false;
    }
  }
}
