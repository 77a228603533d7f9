/** The profile page: saving the profile form in ordered backend steps, and uploading an avatar. */
module ProfilePage {
  import opened Remote
  import opened JsStrings

  /** The columns of the fetched `profiles` row the handlers use; `email` may be absent. */
  datatype ProfileRow = ProfileRow(id: string, email: Option<string>, profilePic: Option<string>)

  datatype ProfileForm = ProfileForm(
    firstName: string,
    lastName: string,
    nickname: string,
    email: string,
    password: string,
    profilePic: string)

  /** The chosen file; only its name matters to the handlers. */
  datatype FileInfo = FileInfo(name: string)

  /** The backend calls the page makes. */
  datatype BackendCall =
    | UpdateProfile(profileId: string, updates: map<string, string>)
    | UpdateEmail(email: string)
    | UpdatePassword(password: string)
    | UploadAvatar(bucket: string, path: string)
    | SetProfilePic(profileId: string, url: string)

  /**
   * The answers the backend would give, one per kind of call (each handler
   * makes each kind of call at most once).
   */
  datatype Replies = Replies(
    profileUpdate: Reply,
    emailUpdate: Reply,
    passwordUpdate: Reply,
    avatarUpload: Reply,
    picUpdate: Reply)

  function ReplyTo(c: BackendCall, rs: Replies): Reply {
    match c
    case UpdateProfile(_, _) => rs.profileUpdate
    case UpdateEmail(_) => rs.emailUpdate
    case UpdatePassword(_) => rs.passwordUpdate
    case UploadAvatar(_, _) => rs.avatarUpload
    case SetProfilePic(_, _) => rs.picUpdate
  }

  datatype Toast = Toast(title: string, description: string, destructive: bool)

  /** `updates`: the three name fields always, `profile_pic` only when the form has one. */
  function BuildUpdates(f: ProfileForm): (u: map<string, string>)
    ensures "first_name" in u && u["first_name"] == f.firstName
    ensures "last_name" in u && u["last_name"] == f.lastName
    ensures "nickname" in u && u["nickname"] == f.nickname
    ensures "profile_pic" in u <==> f.profilePic != ""
    ensures "profile_pic" in u ==> u["profile_pic"] == f.profilePic
    ensures u.Keys <= {"first_name", "last_name", "nickname", "profile_pic"}
  {
    var base := map["first_name" := f.firstName, "last_name" := f.lastName, "nickname" := f.nickname];
    if Truthy(f.profilePic) then base["profile_pic" := f.profilePic] else base
  }

  /** `form.email && form.email !== profile.email`; an absent profile e-mail differs from every string. */
  predicate EmailChanged(f: ProfileForm, p: ProfileRow) {
    Truthy(f.email) && p.email != Some(f.email)
  }

  /** The steps `handleSave` attempts, in order, when each one succeeds. */
  function SavePlan(f: ProfileForm, p: ProfileRow): seq<BackendCall> {
    [UpdateProfile(p.id, BuildUpdates(f))] + (EmailSteps(f, p) + PasswordSteps(f))
  }

  /**
   * The profile row is always updated first; the e-mail step is planned only
   * for a non-empty changed e-mail, the password step only for a non-empty
   * password, and nothing else is planned; the e-mail step comes right
   * after the profile update and the password step comes last.
   */
  lemma SavePlanSteps(f: ProfileForm, p: ProfileRow)
    ensures var plan := SavePlan(f, p);
      && |plan| == 1 + (if EmailChanged(f, p) then 1 else 0) + (if f.password != "" then 1 else 0)
      && plan[0] == UpdateProfile(p.id, BuildUpdates(f))
      && (UpdateEmail(f.email) in plan <==> EmailChanged(f, p))
      && (UpdatePassword(f.password) in plan <==> f.password != "")
      && (forall c :: c in plan ==> c.UpdateProfile? || c.UpdateEmail? || c.UpdatePassword?)
      && (EmailChanged(f, p) ==> plan[1] == UpdateEmail(f.email))
      && (f.password != "" ==> plan[|plan| - 1] == UpdatePassword(f.password))
  {
  }

  function EmailSteps(f: ProfileForm, p: ProfileRow): seq<BackendCall> {
    if EmailChanged(f, p) then [UpdateEmail(f.email)] else []
  }

  function PasswordSteps(f: ProfileForm): seq<BackendCall> {
    if Truthy(f.password) then [UpdatePassword(f.password)] else []
  }

  /** The steps actually sent: the plan up to and including its first step that did not answer `Ok`. */
  function Executed(plan: seq<BackendCall>, rs: Replies): (run: seq<BackendCall>)
    ensures |run| <= |plan| && run == plan[..|run|]
    ensures plan != [] ==> run != []
    ensures forall i :: 0 <= i < |run| - 1 ==> ReplyTo(run[i], rs).Ok?
    ensures |run| < |plan| ==> !ReplyTo(run[|run| - 1], rs).Ok?
  {
    if plan == [] then []
    else if ReplyTo(plan[0], rs).Ok? then [plan[0]] + Executed(plan[1..], rs)
    else [plan[0]]
  }

  /** Sending one step, then the rest only if it answered `Ok`. */
  lemma ExecutedCons(step: BackendCall, rest: seq<BackendCall>, rs: Replies)
    ensures Executed([step] + rest, rs)
            == if ReplyTo(step, rs).Ok? then [step] + Executed(rest, rs) else [step]
  {
    assert ([step] + rest)[0] == step && ([step] + rest)[1..] == rest;
  }

  /** If every step succeeds, every step is sent. */
  lemma {:induction false} ExecutedAllWhenAllOk(plan: seq<BackendCall>, rs: Replies)
    requires forall c :: c in plan ==> ReplyTo(c, rs).Ok?
    ensures Executed(plan, rs) == plan
  {
    if plan != [] {
      assert plan[0] in plan;
      assert forall c :: c in plan[1..] ==> c in plan;
      ExecutedAllWhenAllOk(plan[1..], rs);
    }
  }

  /** A step after a failed one is never sent. */
  lemma StopsAtFirstFailure(plan: seq<BackendCall>, rs: Replies, i: nat)
    requires i < |plan| && !ReplyTo(plan[i], rs).Ok?
    ensures |Executed(plan, rs)| <= i + 1
  {
    var run := Executed(plan, rs);
    if |run| > i + 1 {
      assert run[i] == plan[i];
    }
  }

  /** The title of the error toast after a failed step; each save step has its own. */
  function SaveFailureTitle(c: BackendCall): (title: string)
    ensures c.UpdateProfile? ==> title == "Error updating profile"
    ensures c.UpdateEmail? ==> title == "Error updating email"
    ensures c.UpdatePassword? ==> title == "Error updating password"
  {
    match c
    case UpdateProfile(_, _) => "Error updating profile"
    case UpdateEmail(_) => "Error updating email"
    case UpdatePassword(_) => "Error updating password"
    case UploadAvatar(_, _) => "Upload failed"
    case SetProfilePic(_, _) => "Error updating profile pic"
  }

  /**
   * The toast a save ends with: the success toast when the last step sent
   * answered `Ok`, the step's error toast when it answered an error, and none
   * when it threw (`handleSave` has no `catch`).
   */
  function SaveToasts(run: seq<BackendCall>, rs: Replies): (t: seq<Toast>)
    requires run != []
    ensures |t| <= 1
    ensures ReplyTo(run[|run| - 1], rs).Ok? ==> t == [Toast("Profile updated", "", false)]
    ensures ReplyTo(run[|run| - 1], rs).Err? ==>
      t == [Toast(SaveFailureTitle(run[|run| - 1]), ReplyTo(run[|run| - 1], rs).message, true)]
    ensures ReplyTo(run[|run| - 1], rs).Threw? ==> t == []
  {
    match ReplyTo(run[|run| - 1], rs)
    case Ok => [Toast("Profile updated", "", false)]
    case Err(m) => [Toast(SaveFailureTitle(run[|run| - 1]), m, true)]
    case Threw => []
  }

  /** The storage path `handleUpload` writes: `avatars/<profile id>.<extension>`. */
  function UploadPath(profileId: string, fileName: string): string {
    "avatars/" + profileId + "." + AfterLast(fileName, '.')
  }

  /**
   * The extension in the upload path is the text after the last '.' of the
   * file name, or the whole name when it has no '.'.
   */
  lemma UploadPathShape(profileId: string, fileName: string)
    ensures var path := UploadPath(profileId, fileName);
      var prefix := "avatars/" + profileId + ".";
      && StartsWith(path, prefix)
      && var ext := path[|prefix|..];
      && '.' !in ext && |ext| <= |fileName| && fileName[|fileName| - |ext|..] == ext
      && (|ext| < |fileName| ==> fileName[|fileName| - |ext| - 1] == '.')
  {
    var prefix := "avatars/" + profileId + ".";
    var ext := AfterLast(fileName, '.');
    AfterLastIsSuffix(fileName, '.');
    assert (prefix + ext)[..|prefix|] == prefix;
    assert (prefix + ext)[|prefix|..] == ext;
  }

  class Profile {
    var profile: Option<ProfileRow>
    var form: ProfileForm
    var loading: bool
    var uploading: bool
    var file: Option<FileInfo>
    /** The backend calls made so far, oldest first. */
    var calls: seq<BackendCall>
    var toasts: seq<Toast>

    /**
     * `handleSave`; `rs` gives the answer each backend step would get.
     * A step is sent only when every earlier one answered `Ok`; `loading`
     * ends false unless a step threw. With no profile loaded, `profile.id`
     * throws before any call and `loading` stays true.
     */
    method HandleSave(rs: Replies)
      modifies this
      ensures form == old(form) && profile == old(profile) && file == old(file) && uploading == old(uploading)
      ensures profile.None? ==> loading && calls == old(calls) && toasts == old(toasts)
      ensures profile.Some? ==>
        var run := Executed(SavePlan(form, profile.value), rs);
        && calls == old(calls) + run
        && loading == ReplyTo(run[|run| - 1], rs).Threw?
        && toasts == old(toasts) + SaveToasts(run, rs)
    {
      loading := true;
      var updates := BuildUpdates(form);
      if profile.None? {
        return;
      }
      var p := profile.value;
      ghost var emailSteps := EmailSteps(form, p);
      ghost var passwordSteps := PasswordSteps(form);
      var step := UpdateProfile(p.id, updates);
      ExecutedCons(step, emailSteps + passwordSteps, rs);
      calls := calls + [step];
      var reply := ReplyTo(step, rs);
      if !reply.Ok? {
        if reply.Err? {
          toasts := toasts + [Toast(SaveFailureTitle(step), reply.message, true)];
          loading := false;
        }
        return;
      }
      if EmailChanged(form, p) {
        step := UpdateEmail(form.email);
        ExecutedCons(step, passwordSteps, rs);
        calls := calls + [step];
        reply := ReplyTo(step, rs);
        if !reply.Ok? {
          if reply.Err? {
            toasts := toasts + [Toast(SaveFailureTitle(step), reply.message, true)];
            loading := false;
          }
          return;
        }
      }
      if Truthy(form.password) {
        step := UpdatePassword(form.password);
        ExecutedCons(step, [], rs);
        calls := calls + [step];
        reply := ReplyTo(step, rs);
        if !reply.Ok? {
          if reply.Err? {
            toasts := toasts + [Toast(SaveFailureTitle(step), reply.message, true)];
            loading := false;
          }
          return;
        }
      }
      toasts := toasts + [Toast("Profile updated", "", false)];
      loading := false;
    }

    /**
     * `handleUpload`; `rs` gives the backend answers and `publicUrlOf`
     * stands for `getPublicUrl`. No file: nothing happens. A failed upload
     * stops before the profile is touched; only a successful update changes
     * `form.profile_pic` and `profile.profile_pic`.
     */
    method HandleUpload(rs: Replies, publicUrlOf: string -> string)
      modifies this
      ensures loading == old(loading) && file == old(file)
      ensures file.None? ==>
        && uploading == old(uploading) && form == old(form) && profile == old(profile)
        && calls == old(calls) && toasts == old(toasts)
      ensures file.Some? && profile.None? ==>
        uploading && form == old(form) && profile == old(profile) && calls == old(calls) && toasts == old(toasts)
      ensures file.Some? && old(profile).Some? ==>
        var id := old(profile).value.id;
        var path := UploadPath(id, file.value.name);
        var upload := ReplyTo(UploadAvatar("avatars", path), rs);
        var url := publicUrlOf(path);
        var update := ReplyTo(SetProfilePic(id, url), rs);
        && (!upload.Ok? ==>
              && calls == old(calls) + [UploadAvatar("avatars", path)]
              && form == old(form) && profile == old(profile) && uploading == upload.Threw?
              && toasts == old(toasts) + (if upload.Err? then [Toast("Upload failed", upload.message, true)] else []))
        && (upload.Ok? ==>
              && calls == old(calls) + [UploadAvatar("avatars", path), SetProfilePic(id, url)]
              && uploading == update.Threw?
              && (update.Ok? ==>
                    && form == old(form).(profilePic := url)
                    && profile == Some(old(profile).value.(profilePic := Some(url)))
                    && toasts == old(toasts) + [Toast("Profile picture updated", "", false)])
              && (!update.Ok? ==>
                    && form == old(form) && profile == old(profile)
                    && toasts == old(toasts)
                       + (if update.Err? then [Toast("Error updating profile pic", update.message, true)] else [])))
    {
      if file.None? {
        return;
      }
      uploading := true;
      if profile.None? {
        return;
      }
      var p := profile.value;
      var path := UploadPath(p.id, file.value.name);
      calls := calls + [UploadAvatar("avatars", path)];
      var reply := ReplyTo(UploadAvatar("avatars", path), rs);
      if !reply.Ok? {
        if reply.Err? {
          toasts := toasts + [Toast("Upload failed", reply.message, true)];
          uploading := false;
        }
        return;
      }
      var url := publicUrlOf(path);
      calls := calls + [SetProfilePic(p.id, url)];
      reply := ReplyTo(SetProfilePic(p.id, url), rs);
      match reply {
        case Ok =>
          form := form.(profilePic := url);
          profile := Some(p.(profilePic := Some(url)));
          toasts := toasts + [Toast("Profile picture updated", "", false)];
        case Err(m) =>
          toasts := toasts + [Toast("Error updating profile pic", m, true)];
        case Threw =>
          return;
      }
      uploading := false;
    }
  }
}
