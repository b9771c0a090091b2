/**
  The edit-profile screen: the name field, a loading flag, an error message and a success
  snackbar, updated by `handleUpdateProfile` around one call into the authentication
  service, after which the session is checked again through the auth store.
 */
module EditProfile {
  import opened Wrappers
  import opened Backend
  import opened JsString
  import opened AuthSlice

  const EmptyNameMessage := "Name cannot be empty"

  /** `user?.user_metadata?.full_name || ""`: the name the field starts with. */
  function InitialName(user: Option<User>): (r: string)
    ensures user.Some? && user.value.fullName.Some? ==> r == user.value.fullName.value
    ensures user.None? || user.value.fullName.None? ==> r == ""
  {
    match user
    case None => ""
    case Some(u) => u.fullName.GetOr("")
  }

  /** The event that settles the `checkSession` action: fulfilled with the session found, or rejected. */
  function CheckSessionSettled(found: Response<Session>): (a: AuthAction)
    ensures a.CheckSessionFulfilled? <==> found.Data?
    ensures a.CheckSessionRejected? <==> found.Failure?
    ensures found.Data? ==> a.payload == found.value
  {
    match found
    case Data(p) => CheckSessionFulfilled(p)
    case Failure(_) => CheckSessionRejected
  }

  datatype ProfileForm = ProfileForm(fullName: string, loading: bool, error: string, showSnackbar: bool)

  /** The update request, with the name it sends and the screen's state at the moment it was made. */
  datatype ProfileCall = UpdateFullName(name: string, seen: ProfileForm)

  class EditProfileScreen {
    var fullName: string
    var loading: bool
    var error: string
    var showSnackbar: bool

    function Form(): ProfileForm
      reads this
    {
      ProfileForm(fullName, loading, error, showSnackbar)
    }

    constructor (user: Option<User>)
      ensures Form() == ProfileForm(InitialName(user), false, "", false)
    {
      fullName := InitialName(user);
      loading, error, showSnackbar := false, "", false;
    }

    /**
      `handleUpdateProfile`. A name that is empty once trimmed is refused with no request.
      Otherwise loading is switched on and the error cleared, the trimmed name is sent, and
      on success the session is checked again (its pending and settling events reach the
      auth store) and the snackbar is shown; a failure records its message. Loading ends off
      on every path past the check, and the field itself is never rewritten.
     */
    method HandleUpdateProfile(update: AuthReply, auth: AuthStore, refreshed: Response<Session>)
      returns (ghost calls: seq<ProfileCall>)
      modifies this, auth
      ensures Trim(old(fullName)) == [] ==>
        && calls == []
        && Form() == old(Form()).(error := EmptyNameMessage)
        && auth.State() == old(auth.State())
      ensures Trim(old(fullName)) != [] ==>
        && calls == [UpdateFullName(Trim(old(fullName)), old(Form()).(loading := true, error := ""))]
        && !loading && fullName == old(fullName)
      ensures Trim(old(fullName)) != [] && update.Ok? ==>
        && Form() == old(Form()).(loading := false, error := "", showSnackbar := true)
        && auth.State() == ReduceAll(old(auth.State()), [CheckSessionPending, CheckSessionSettled(refreshed)])
      ensures Trim(old(fullName)) != [] && !update.Ok? ==>
        && Form() == old(Form()).(loading := false, error := update.message)
        && auth.State() == old(auth.State())
      ensures forall i :: 0 <= i < |calls| ==>
        calls[i].name != [] && !IsWhitespace(calls[i].name[0]) && !IsWhitespace(calls[i].name[|calls[i].name| - 1])
    {
      calls := [];
      var name := Trim(fullName);
      if name == [] {
        error := EmptyNameMessage;
        return;
      }

      loading := true;
      error := "";

      calls := [UpdateFullName(name, Form())];
      if update.Ok? {
        DispatchCheckSession(auth, refreshed);
        showSnackbar := true;
      } else {
        error := update.message;
      }
      loading := false;
    }
  }

  /**
    `await dispatch(checkSession())`: the store sees the pending event, then the event that
    settles the action. The awaited dispatch itself never throws.
   */
  method DispatchCheckSession(auth: AuthStore, found: Response<Session>)
    modifies auth
    ensures auth.State() == ReduceAll(old(auth.State()), [CheckSessionPending, CheckSessionSettled(found)])
  {
    ghost var before := auth.State();
    auth.Dispatch(CheckSessionPending);
    auth.Dispatch(CheckSessionSettled(found));
    RefreshIsTwoSteps(before, CheckSessionSettled(found));
  }

  lemma RefreshIsTwoSteps(s: AuthState, settled: AuthAction)
    ensures ReduceAll(s, [CheckSessionPending, settled]) == Reduce(Reduce(s, CheckSessionPending), settled)
  {
    var actions := [CheckSessionPending, settled];
    var mid := Reduce(s, CheckSessionPending);
    assert actions[1..] == [settled];
    assert ReduceAll(s, actions) == ReduceAll(mid, [settled]);
    assert [settled][1..] == [];
    assert ReduceAll(mid, [settled]) == ReduceAll(Reduce(mid, settled), []);
  }
}
